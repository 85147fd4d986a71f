/** Lambda runs: dispatch, the token of each batch, and the batch loop (internal/fn/lambdarun.go, lambdaexec.go). */
module FnLambda {
  import opened Option
  import opened FnStore
  import opened FnRuns
  import opened FnSafety
  import opened FnBackend
  import opened FnService

  predicate ForBackend(db: DB, r: Run) {
    r.fn in db.fns && db.fns[r.fn].enabled && db.fns[r.fn].lambda
  }

  /** The runs of enabled functions are for the nodes or for the backend, as the function says, never for both. */
  lemma {:induction false} ForOneOfThem(db: DB, r: Run)
    ensures ForNodes(db, r) || ForBackend(db, r) <==> r.fn in db.fns && db.fns[r.fn].enabled
    ensures ForNodes(db, r) ==> !db.fns[r.fn].lambda
    ensures ForBackend(db, r) ==> db.fns[r.fn].lambda
  {
  }

  // A run that was for the backend when it was read is dispatched when it is started.
  lemma {:induction false} StillForBackend(queued: seq<Op>, read: seq<Op>, started: seq<Op>, r: Run)
    requires queued <= read <= started
    requires r.id in RunAll(queued).db.runs && RunAll(queued).db.runs[r.id] == r && ForBackend(RunAll(read).db, r)
    ensures var w := RunAll(started);
            r.id in w.db.runs && w.db.runs[r.id].fn in w.known && w.known[w.db.runs[r.id].fn].lambda
  {
    hide RunAll, Good;
    TimePasses(queued, read);
    TimePasses(read, started);
    EveryRunIsGood(read);
    EveryRunIsGood(started);
    KindIsFixed(RunAll(read), RunAll(started), r.id);
  }

  lemma {:induction false} ReadyStays(a: seq<Op>, b: seq<Op>, id: RunId, p: Phase)
    requires a <= b && InPhase(RunAll(a), id, p) && id in RunAll(b).phase && RunAll(b).phase[id] == p
    ensures InPhase(RunAll(b), id, p)
  {
    hide RunAll;
    TimePasses(a, b);
    EveryRunIsGood(b);
  }

  datatype MintResult = Stopped | MintFailed | Minted(hash: string)

  lemma CheckOutcome(b: World, id: RunId)
    requires InPhase(b, id, Ready)
    ensures var v := Effect(b, CheckRunning(id));
            && v.db == b.db && v.known == b.known && InPhase(v, id, if b.db.runs[id].status == Running then Checked else Settled)
  {
  }

  lemma WipeOutcome(b: World, id: RunId, now: int)
    requires InPhase(b, id, Checked)
    ensures InPhase(Effect(b, Wipe(id, now)), id, Wiped) && Effect(b, Wipe(id, now)).db.runs == b.db.runs
  {
    hide Revoked;
    RevokedRevokes(b.db, id, now);
  }

  // The token of a batch carries the scopes of the run and outlives the longest invocation by the grace.
  ghost predicate HoldsBatchToken(w: World, id: RunId, hash: string, now: int) {
    && id in w.db.runs && hash in w.db.tokens
    && w.db.tokens[hash] == Token(id, w.db.runs[id].scopes, now + 1_200_000_000_000, None)
  }

  lemma MintOutcome(b: World, id: RunId, hash: string, now: int)
    requires InPhase(b, id, Wiped) && hash !in b.db.tokens
    ensures var v := Effect(b, MintBatch(id, hash, now));
            && InPhase(v, id, Ready) && v.db.runs == b.db.runs
            && HoldsBatchToken(v, id, hash, now)
  {
  }

  predicate RunsIn(w: World, id: RunId) {
    id in w.db.runs && w.db.runs[id].status == Running
  }

  // After some step from `first` on, the run was not running.
  ghost predicate StoppedDuring(ops: seq<Op>, first: nat, id: RunId) {
    exists k: nat :: first <= k <= |ops| && !RunsIn(At(ops, k), id)
  }

  lemma {:induction false} StoppedStays(ops: seq<Op>, later: seq<Op>, first: nat, earlier: nat, id: RunId)
    requires ops <= later && earlier <= first && StoppedDuring(ops, first, id)
    ensures StoppedDuring(later, earlier, id)
  {
    hide RunAll;
    var k: nat :| first <= k <= |ops| && !RunsIn(At(ops, k), id);
    assert later[..k] == ops[..k];
    assert !RunsIn(At(later, k), id);
  }

  // The step before the last was taken in a world in which the run was not running.
  lemma {:induction false} StoppedBefore(first: seq<Op>, ops: seq<Op>, id: RunId)
    requires |ops| > 0 && first <= ops[..|ops| - 1] && !RunsIn(RunAll(ops[..|ops| - 1]), id)
    ensures StoppedDuring(ops, |first|, id)
  {
    hide RunAll;
    assert !RunsIn(At(ops, |ops| - 1), id);
  }

  // Whether the run still runs.
  method Recheck(b: Backend, id: RunId) returns (running: bool, ghost checked: World)
    requires b.Valid() && id in b.mine && InPhase(b.w, id, Ready)
    modifies b`w, b`others, b`ops
    ensures b.Valid() && old(b.ops) <= b.ops && Later(old(b.w), checked)
    ensures running <==> id in checked.db.runs && checked.db.runs[id].status == Running
    ensures InPhase(b.w, id, if running then Checked else Settled) && (!running ==> StoppedDuring(b.ops, |old(b.ops)|, id))
    ensures old(b.others) == [] ==> b.others == [] && checked == old(b.w) && b.w.db == checked.db
  {
    hide RunAll, Good, Later, Effect, Legal, InPhase, Recorded, Allowed, StoppedDuring;
    ghost var o0, w0 := b.ops, b.w;
    AllowedOwn(w0, b.mine, id, 0);
    var before := b.Do(CheckRunning(id));
    ghost var o1 := b.ops;
    checked := before;
    RecordedWorlds(o0, o1, CheckRunning(id), before, b.w);
    PhaseMeans(w0, id, Ready);
    ReadyStays(o0, o1[..|o1| - 1], id, Ready);
    CheckOutcome(before, id);
    PhaseMeans(before, id, Ready);
    running := before.db.runs[id].status == Running;
    if !running {
      StoppedBefore(o0, o1, id);
    }
  }

  /**
   The token of the next batch. It is minted only for a run found running, and is then the run's only
   unrevoked token: the previous batch's token is dead, even if others ended the run meanwhile.
   */
  method Mint(b: Backend, id: RunId, now: int) returns (r: MintResult, ghost checked: World)
    requires b.Valid() && id in b.mine && InPhase(b.w, id, Ready)
    modifies b
    ensures b.Valid() && old(b.ops) <= b.ops && b.mine == old(b.mine) && Later(old(b.w), checked)
    ensures r == Stopped <==> !(id in checked.db.runs && checked.db.runs[id].status == Running)
    ensures r == Stopped ==> StoppedDuring(b.ops, |old(b.ops)|, id) && InPhase(b.w, id, Settled)
    ensures r.Minted? ==> |b.ops| > |old(b.ops)| && b.ops[|b.ops| - 1] == MintBatch(id, r.hash, now)
    ensures old(b.faults) == [] ==> b.faults == [] && r != MintFailed
    ensures b.failed == old(b.failed) + if r == MintFailed then 1 else 0
    ensures r.Minted? ==> && OnlyUnrevoked(b.w, r.hash, id) && InPhase(b.w, id, Ready)
                          && r.hash !in old(b.w).db.tokens && HoldsBatchToken(b.w, id, r.hash, now)
    ensures old(b.Quiet()) ==> b.Quiet() && checked == old(b.w) && r != MintFailed && b.w.db.runs == old(b.w).db.runs
  {
    hide RunAll, Good, Later, Effect, Legal, InPhase, OnlyUnrevoked, Recorded, Allowed, HoldsBatchToken, StoppedDuring;
    ghost var o0, w0 := b.ops, b.w;
    var running, seen := Recheck(b, id);
    ghost var o1, w1 := b.ops, b.w;
    checked := seen;
    if !running {
      return Stopped, checked;
    }
    PhaseMeans(w1, id, Checked);
    AllowedOwn(w1, b.mine, id, now);
    var mid := b.Do(Wipe(id, now));
    ghost var o2, w2 := b.ops, b.w;
    RecordedWorlds(o1, o2, Wipe(id, now), mid, w2);
    ReadyStays(o1, o2[..|o2| - 1], id, Checked);
    WipeOutcome(mid, id, now);
    var err, hash, last := b.PutToken(id, false, now);
    if err {
      return MintFailed, checked;
    }
    RecordedWorlds(o2, b.ops, MintBatch(id, hash, now), last, b.w);
    FnService.Minted(o2, b.ops, MintBatch(id, hash, now), last, b.w);
    MintLegal(last, id, hash, now);
    MintOutcome(last, id, hash, now);
    TimePasses(o0, b.ops[..|b.ops| - 1]);
    HashIsNew(w0, last, hash);
    return MintResult.Minted(hash), checked;
  }

  lemma HashIsNew(a: World, b: World, hash: string)
    requires Later(a, b) && hash !in b.db.tokens
    ensures hash !in a.db.tokens
  {
  }

  lemma MintLegal(b: World, id: RunId, hash: string, now: int)
    requires Legal(b, MintBatch(id, hash, now))
    ensures InPhase(b, id, Wiped) && hash !in b.db.tokens
  {
  }

  lemma PhaseMeans(w: World, id: RunId, p: Phase)
    requires InPhase(w, id, p)
    ensures id in w.phase && w.phase[id] == p && id in w.db.runs
  {
  }

  lemma Unsnoc(ops: seq<Op>)
    requires |ops| > 0
    ensures ops == ops[..|ops| - 1] + [ops[|ops| - 1]] && ops[..|ops| - 1] <= ops
  {
  }

  lemma {:induction false} RecordedWorlds(before: seq<Op>, after: seq<Op>, op: Op, b: World, v: World)
    requires Recorded(before, after, op, b, v)
    ensures |after| > 0 && before <= after[..|after| - 1] <= after && after[|after| - 1] == op
    ensures b == RunAll(after[..|after| - 1]) && v == RunAll(after)
    ensures Legal(b, op) && v == Effect(b, op)
  {
    hide RunAll, Legal, Effect, Good;
    StepOfLegal(b, op);
    Unsnoc(after);
    OneMore(after[..|after| - 1], op);
  }

  // ---- when revoking suffices --------------------------------------------------------------------------

  // The process that started the run is past its check and has a token still to mint.
  predicate MintUnderWay(w: World, id: RunId) {
    id in w.phase && (w.phase[id] == Claimed || w.phase[id] == Checked || w.phase[id] == Wiped)
  }

  // The run has ended and all its tokens are revoked.
  ghost predicate Dead(w: World, id: RunId) {
    id in w.db.runs && Terminal(w.db.runs[id].status) && forall h :: !Unrevoked(w, h, id)
  }

  lemma StaysDead(w: World, op: Op, id: RunId)
    requires Good(w) && Dead(w, id) && !MintUnderWay(w, id)
    ensures Dead(Step(w, op), id) && !MintUnderWay(Step(w, op), id)
  {
    hide SoundFunctions, SoundTokens, WithinLimits, NameTaken, Due, RunningOf, Revoked;
    if op.Revoke? || op.Wipe? {
      RevokedRevokes(w.db, op.id, op.now);
    }
    forall h ensures !Unrevoked(Step(w, op), h, id) {
      assert !Unrevoked(w, h, id);
    }
  }

  lemma {:induction false} DeadForGood(ops: seq<Op>, more: seq<Op>, id: RunId)
    requires Dead(RunAll(ops), id) && !MintUnderWay(RunAll(ops), id)
    ensures Dead(RunAll(ops + more), id) && !MintUnderWay(RunAll(ops + more), id)
  {
    hide RunAll, Step, Dead, MintUnderWay, Good;
    if more == [] {
      assert ops + more == ops;
    } else {
      var before := more[..|more| - 1];
      DeadForGood(ops, before, id);
      EveryRunIsGood(ops + before);
      StaysDead(RunAll(ops + before), more[|more| - 1], id);
      OneMore(ops + before, more[|more| - 1]);
      assert ops + before + [more[|more| - 1]] == ops + more;
    }
  }

  lemma MintLeavesToken(w: World, id: RunId, hash: string)
    requires hash !in w.db.tokens
    ensures InPhase(w, id, Claimed) ==> Unrevoked(Step(w, MintClaim(id, hash, 0)), hash, id)
    ensures InPhase(w, id, Wiped) ==> Unrevoked(Step(w, MintBatch(id, hash, 0)), hash, id)
  {
  }

  lemma WipeThenMint(w: World, id: RunId, hash: string)
    requires InPhase(w, id, Checked) && hash !in w.db.tokens
    ensures Unrevoked(Step(Step(w, Wipe(id, 0)), MintBatch(id, hash, 0)), hash, id)
  {
    WipeOutcome(w, id, 0);
    RevokedRevokes(w.db, id, 0);
    hide Revoked, InPhase;
    MintLeavesToken(Step(w, Wipe(id, 0)), id, hash);
  }

  // A mint that is under way ends with a token, whatever happened to the run.
  lemma {:induction false} MintGoesOn(ops: seq<Op>, id: RunId) returns (more: seq<Op>)
    requires id in RunAll(ops).db.runs && MintUnderWay(RunAll(ops), id)
    ensures !Dead(RunAll(ops + more), id)
  {
    hide RunAll, Good, Step, Unrevoked;
    var w := RunAll(ops);
    EveryRunIsGood(ops);
    FreshHashExists(w.db.tokens.Keys);
    var hash :| hash !in w.db.tokens.Keys;
    RunsAreNamed(w);
    match w.phase[id] {
      case Claimed =>
        more := [MintClaim(id, hash, 0)];
        OneMore(ops, MintClaim(id, hash, 0));
        MintLeavesToken(w, id, hash);
      case Wiped =>
        more := [MintBatch(id, hash, 0)];
        OneMore(ops, MintBatch(id, hash, 0));
        MintLeavesToken(w, id, hash);
      case Checked =>
        more := [Wipe(id, 0)] + [MintBatch(id, hash, 0)];
        OneMore(ops, Wipe(id, 0));
        OneMore(ops + [Wipe(id, 0)], MintBatch(id, hash, 0));
        WipeThenMint(w, id, hash);
        assert ops + [Wipe(id, 0)] + [MintBatch(id, hash, 0)] == ops + more;
    }
    assert Unrevoked(RunAll(ops + more), hash, id);
  }

  /**
   Ending a run and revoking its tokens leaves it without an unrevoked token for good exactly when no mint
   for it is under way.
   */
  lemma {:induction false} RevocationHoldsExactlyWhen(ops: seq<Op>, id: RunId)
    requires Dead(RunAll(ops), id)
    ensures (forall more :: Dead(RunAll(ops + more), id)) <==> !MintUnderWay(RunAll(ops), id)
  {
    hide RunAll, Dead, MintUnderWay;
    if MintUnderWay(RunAll(ops), id) {
      assert id in RunAll(ops).db.runs by { DeadRuns(RunAll(ops), id); }
      var more := MintGoesOn(ops, id);
    } else {
      forall more ensures Dead(RunAll(ops + more), id) {
        DeadForGood(ops, more, id);
      }
    }
  }

  lemma DeadRuns(w: World, id: RunId)
    requires Dead(w, id)
    ensures id in w.db.runs
  {
  }

  // ---- the batch loop --------------------------------------------------------------------------------

  // What the function answers to a batch.
  datatype Reply =
    | InvokeError
    | FunctionError
    | Done(bytesIn: int, bytesOut: int)
    | Continue(cursor: string, bytesIn: int, bytesOut: int)

  datatype Payload = Payload(attempt: nat, cursor: Option<string>, hash: string, budget: int)

  datatype RunError = NoError | RunStopped | TokenError | InvokeFailed

  datatype Outcome = Outcome(status: Option<Status>, batches: nat, bytesIn: int, bytesOut: int)

  function BytesIn(replies: nat -> Reply, n: nat): int {
    if n == 0 then 0
    else BytesIn(replies, n - 1) + match replies(n - 1) { case Done(i, _) => i case Continue(_, i, _) => i case _ => 0 }
  }

  function BytesOut(replies: nat -> Reply, n: nat): int {
    if n == 0 then 0
    else BytesOut(replies, n - 1) + match replies(n - 1) { case Done(_, o) => o case Continue(_, _, o) => o case _ => 0 }
  }

  // The batches sent: each with the whole of its slice or of the time that is left, each resuming where the
  // one before stopped.
  ghost predicate GoodBatches(sent: seq<Payload>, deadline: int, clock: nat -> int, replies: nat -> Reply) {
    && (forall i :: 0 <= i < |sent| ==>
          && sent[i].attempt == i && 0 < sent[i].budget <= 780_000_000_000 && clock(i) + sent[i].budget <= deadline
          && (sent[i].budget < 780_000_000_000 ==> sent[i].budget == deadline - clock(i))
          && (i == 0 ==> sent[i].cursor == None)
          && (i > 0 ==> replies(i - 1).Continue? && sent[i].cursor == Some(replies(i - 1).cursor)))
    && forall i, j :: 0 <= i < j < |sent| ==> sent[i].hash != sent[j].hash
  }

  function BudgetAt(deadline: int, now: int): int {
    if deadline - now < BATCH_SLICE then deadline - now else BATCH_SLICE
  }

  // The token of every batch was minted, at that batch's time, by a step from `first` on.
  ghost predicate MintedIn(ops: seq<Op>, first: nat, id: RunId, sent: seq<Payload>, clock: nat -> int) {
    forall i :: 0 <= i < |sent| ==> MintBatch(id, sent[i].hash, clock(i)) in ops[if first <= |ops| then first else 0..]
  }

  lemma {:induction false} MintJoins(before: seq<Op>, ops: seq<Op>, first: nat, id: RunId, sent: seq<Payload>, p: Payload,
          clock: nat -> int)
    requires first <= |before| < |ops| && before <= ops && MintedIn(before, first, id, sent, clock)
    requires ops[|ops| - 1] == MintBatch(id, p.hash, clock(|sent|))
    ensures MintedIn(ops, first, id, sent + [p], clock)
  {
    assert before[first..] <= ops[first..];
    assert ops[first..][|ops| - 1 - first] == ops[|ops| - 1];
  }

  lemma {:induction false} MintsStay(before: seq<Op>, ops: seq<Op>, first: nat, id: RunId, sent: seq<Payload>, clock: nat -> int)
    requires first <= |before| && before <= ops && MintedIn(before, first, id, sent, clock)
    ensures MintedIn(ops, first, id, sent, clock)
  {
    assert before[first..] <= ops[first..];
  }

  // How the loop may end after the first n batches.
  ghost predicate Ended(n: nat, deadline: int, clock: nat -> int, replies: nat -> Reply, status: Option<Status>, err: RunError) {
    && (status == Some(TimedOut) <==> err == NoError && clock(n) >= deadline && (n > 0 ==> replies(n - 1).Continue?))
    && (status == Some(Succeeded) <==> err == NoError && n > 0 && replies(n - 1).Done?)
    && (status == Some(Failed) <==> err == NoError && n > 0 && replies(n - 1).FunctionError?)
    && (err == InvokeFailed <==> n > 0 && replies(n - 1).InvokeError?)
    && (status.None? <==> err != NoError)
  }

  ghost predicate Ticking(clock: nat -> int) {
    forall k: nat :: clock(k) < clock(k + 1)
  }

  // The tokens of the batches are in the store.
  ghost predicate Held(sent: seq<Payload>, w: World) {
    forall i :: 0 <= i < |sent| ==> sent[i].hash in w.db.tokens
  }

  lemma {:induction false} StillHeld(sent: seq<Payload>, before: seq<Op>, after: seq<Op>)
    requires before <= after && Held(sent, RunAll(before))
    ensures Held(sent, RunAll(after))
  {
    hide RunAll;
    TimePasses(before, after);
  }

  lemma OneMoreBatch(sent: seq<Payload>, p: Payload, deadline: int, clock: nat -> int, replies: nat -> Reply, w: World, v: World,
          id: RunId)
    requires GoodBatches(sent, deadline, clock, replies)
    requires p.attempt == |sent| && clock(|sent|) < deadline && p.budget == BudgetAt(deadline, clock(|sent|))
    requires if |sent| == 0 then p.cursor == None
             else replies(|sent| - 1).Continue? && p.cursor == Some(replies(|sent| - 1).cursor)
    requires Held(sent, w) && p.hash !in w.db.tokens && Held(sent, v) && OnlyUnrevoked(v, p.hash, id)
    ensures GoodBatches(sent + [p], deadline, clock, replies) && Held(sent + [p], v)
  {
  }

  // The cursor of batch n: none at first, then the one the batch before returned.
  predicate ResumesAt(cursor: Option<string>, n: nat, replies: nat -> Reply) {
    if n == 0 then cursor == None else replies(n - 1).Continue? && cursor == Some(replies(n - 1).cursor)
  }

  function Left(deadline: int, clock: nat -> int, n: nat): int {
    deadline - clock(n)
  }

  // The batches sent so far, with a token each that this call minted.
  ghost predicate Sent(ops: seq<Op>, first: nat, id: RunId, sent: seq<Payload>, deadline: int, clock: nat -> int,
          replies: nat -> Reply) {
    GoodBatches(sent, deadline, clock, replies) && Held(sent, RunAll(ops)) && MintedIn(ops, first, id, sent, clock)
  }

  lemma {:induction false} SentStays(before: seq<Op>, ops: seq<Op>, first: nat, id: RunId, sent: seq<Payload>, deadline: int,
          clock: nat -> int, replies: nat -> Reply)
    requires first <= |before| && before <= ops && Sent(before, first, id, sent, deadline, clock, replies)
    ensures Sent(ops, first, id, sent, deadline, clock, replies)
  {
    hide RunAll, GoodBatches, Held, MintedIn;
    StillHeld(sent, before, ops);
    MintsStay(before, ops, first, id, sent, clock);
  }

  lemma {:induction false} SentJoins(before: seq<Op>, ops: seq<Op>, first: nat, id: RunId, sent: seq<Payload>, p: Payload,
          deadline: int, clock: nat -> int, replies: nat -> Reply)
    requires first <= |before| < |ops| && before <= ops && Sent(before, first, id, sent, deadline, clock, replies)
    requires p.attempt == |sent| && clock(|sent|) < deadline && p.budget == BudgetAt(deadline, clock(|sent|))
    requires if |sent| == 0 then p.cursor == None
             else replies(|sent| - 1).Continue? && p.cursor == Some(replies(|sent| - 1).cursor)
    requires ops[|ops| - 1] == MintBatch(id, p.hash, clock(|sent|))
    requires p.hash !in RunAll(before).db.tokens && OnlyUnrevoked(RunAll(ops), p.hash, id)
    ensures Sent(ops, first, id, sent + [p], deadline, clock, replies)
  {
    hide RunAll, GoodBatches, Held, MintedIn, OnlyUnrevoked;
    StillHeld(sent, before, ops);
    MintJoins(before, ops, first, id, sent, p, clock);
    OneMoreBatch(sent, p, deadline, clock, replies, RunAll(before), RunAll(ops), id);
  }

  // Mints the token of one batch and builds its payload.
  method Prepare(b: Backend, id: RunId, ghost first: nat, ghost sent: seq<Payload>, attempt: nat, cursor: Option<string>,
          deadline: int, clock: nat -> int, ghost replies: nat -> Reply)
    returns (r: MintResult, p: Payload)
    requires b.Valid() && id in b.mine && InPhase(b.w, id, Ready) && first <= |b.ops| && attempt == |sent|
    requires Left(deadline, clock, attempt) > 0
    requires Sent(b.ops, first, id, sent, deadline, clock, replies)
    requires ResumesAt(cursor, attempt, replies)
    modifies b
    ensures b.Valid() && old(b.ops) <= b.ops && b.mine == old(b.mine)
    ensures old(b.faults) == [] ==> b.faults == [] && r != MintFailed
    ensures b.failed == old(b.failed) + if r == MintFailed then 1 else 0
    ensures r == Stopped ==> StoppedDuring(b.ops, first, id)
    ensures r.Minted? ==> InPhase(b.w, id, Ready) && Sent(b.ops, first, id, sent + [p], deadline, clock, replies)
    ensures !r.Minted? ==> Sent(b.ops, first, id, sent, deadline, clock, replies)
    ensures old(b.Quiet()) ==> b.Quiet() && r != MintFailed && b.w.db.runs == old(b.w).db.runs && (r == Stopped <==> !RunsIn(old(b.w), id))
  {
    hide RunAll, InPhase, OnlyUnrevoked, Sent, StoppedDuring, HoldsBatchToken, Later;
    ghost var o0 := b.ops;
    var now, budget := clock(attempt), BATCH_SLICE;
    if deadline - now < budget {
      budget := deadline - now;
    }
    ghost var checked: World;
    r, checked := Mint(b, id, now);
    p := Payload(attempt, cursor, "", budget);
    if r.Minted? {
      p := p.(hash := r.hash);
      SentJoins(o0, b.ops, first, id, sent, p, deadline, clock, replies);
    } else {
      SentStays(o0, b.ops, first, id, sent, deadline, clock, replies);
      if r == Stopped {
        StoppedStays(b.ops, b.ops, |o0|, first, id);
      }
    }
  }

  // What the answer to a batch makes of the totals; without a cursor it ends the run.
  method TakeReply(out: Outcome, attempt: nat, replies: nat -> Reply, ghost deadline: int, ghost clock: nat -> int)
    returns (out': Outcome, err: RunError, cursor: Option<string>)
    requires out == Outcome(None, attempt, BytesIn(replies, attempt), BytesOut(replies, attempt))
    ensures out' == Outcome(out'.status, attempt + 1, BytesIn(replies, attempt + 1), BytesOut(replies, attempt + 1))
    ensures err == NoError || err == InvokeFailed
    ensures cursor.Some? ==> out'.status == None && err == NoError && ResumesAt(cursor, attempt + 1, replies)
    ensures cursor.None? ==> Ended(attempt + 1, deadline, clock, replies, out'.status, err)
  {
    hide BytesIn, BytesOut, Ended;
    out', err, cursor := out.(batches := attempt + 1), NoError, None;
    CountBatch(replies, attempt);
    match replies(attempt)
    case InvokeError =>
      err := InvokeFailed;
      EndsHere(attempt + 1, deadline, clock, replies, None, InvokeFailed);
    case FunctionError =>
      out' := out'.(status := Some(Failed));
      EndsHere(attempt + 1, deadline, clock, replies, Some(Failed), NoError);
    case Done(bytesIn, bytesOut) =>
      out' := out'.(status := Some(Succeeded), bytesIn := out.bytesIn + bytesIn, bytesOut := out.bytesOut + bytesOut);
      EndsHere(attempt + 1, deadline, clock, replies, Some(Succeeded), NoError);
    case Continue(next, bytesIn, bytesOut) =>
      out' := out'.(bytesIn := out.bytesIn + bytesIn, bytesOut := out.bytesOut + bytesOut);
      cursor := Some(next);
  }

  /**
   Runs the function in batches until it is done, fails, is stopped or runs out of time. Every batch gets
   a token of its own and the cursor the batch before returned; the byte totals are those of the answers.
   The clock moves between batches, so the loop ends by the deadline. It stops early only for a run that
   was not running at some moment of this call, or because a token could not be stored; left alone with a
   run that is running, its end is the one the answers and the clock determine.
   */
  method RunBatches(b: Backend, id: RunId, deadline: int, clock: nat -> int, replies: nat -> Reply)
    returns (out: Outcome, err: RunError, ghost sent: seq<Payload>)
    requires b.Valid() && id in b.mine && InPhase(b.w, id, Ready) && Ticking(clock)
    modifies b
    ensures b.Valid() && old(b.ops) <= b.ops
    ensures out.batches == |sent| && GoodBatches(sent, deadline, clock, replies)
    ensures out.bytesIn == BytesIn(replies, |sent|) && out.bytesOut == BytesOut(replies, |sent|)
    ensures Ended(|sent|, deadline, clock, replies, out.status, err)
    ensures Held(sent, b.w) && MintedIn(b.ops, |old(b.ops)|, id, sent, clock)
    ensures err == RunStopped ==> StoppedDuring(b.ops, |old(b.ops)|, id)
    ensures err == TokenError <==> b.failed > old(b.failed)
    ensures old(b.Quiet()) ==> err != TokenError && (err == RunStopped <==> clock(0) < deadline && !RunsIn(old(b.w), id))
  {
    hide RunAll, InPhase, GoodBatches, Ended, Held, MintedIn, StoppedDuring, RunsIn, Sent, Ticking, BytesIn, BytesOut, Left, ResumesAt;
    ghost var first := |b.ops|;
    ghost var quiet, runs := b.Quiet(), b.w.db.runs;
    ghost var start := b.w;
    CountNothing(replies);
    LeftMeans(deadline, clock, 0);
    out := Outcome(None, 0, 0, 0);
    err := NoError;
    sent := [];
    NoBatches(b.ops, first, id, deadline, clock, replies);
    var cursor: Option<string> := None;
    var attempt: nat := 0;
    while true
      invariant b.Valid() && old(b.ops) <= b.ops && id in b.mine && InPhase(b.w, id, Ready)
      invariant err == NoError && |sent| == attempt
      invariant out == Outcome(None, attempt, BytesIn(replies, attempt), BytesOut(replies, attempt))
      invariant Sent(b.ops, first, id, sent, deadline, clock, replies)
      invariant ResumesAt(cursor, attempt, replies)
      invariant b.failed == old(b.failed)
      invariant quiet ==> b.Quiet() && b.w.db.runs == runs && (attempt > 0 ==> Left(deadline, clock, 0) > 0 && RunsIn(start, id))
      decreases Left(deadline, clock, attempt)
    {
      var left := Left(deadline, clock, attempt);
      if left <= 0 {
        out := out.(status := Some(TimedOut));
        EndsEarly(cursor, attempt, deadline, clock, replies, NoError);
        break;
      }
      ghost var w0 := b.w;
      var r, p := Prepare(b, id, first, sent, attempt, cursor, deadline, clock, replies);
      SameRuns(w0, start, id);
      if !r.Minted? {
        err := if r == Stopped then RunStopped else TokenError;
        EndsEarly(cursor, attempt, deadline, clock, replies, err);
        break;
      }
      sent := sent + [p];
      out, err, cursor := TakeReply(out, attempt, replies, deadline, clock);
      if cursor.None? {
        break;
      }
      TicksOn(deadline, clock, attempt);
      attempt := attempt + 1;
    }
    SentMeans(b.ops, first, id, sent, deadline, clock, replies);
  }

  lemma {:induction false} SentMeans(ops: seq<Op>, first: nat, id: RunId, sent: seq<Payload>, deadline: int, clock: nat -> int,
          replies: nat -> Reply)
    requires Sent(ops, first, id, sent, deadline, clock, replies)
    ensures GoodBatches(sent, deadline, clock, replies) && Held(sent, RunAll(ops)) && MintedIn(ops, first, id, sent, clock)
  {
    hide RunAll, GoodBatches, Held, MintedIn;
  }

  lemma {:induction false} SameRuns(v: World, w: World, id: RunId)
    ensures v.db.runs == w.db.runs ==> (RunsIn(v, id) <==> RunsIn(w, id))
  {
  }

  lemma {:induction false} TicksOn(deadline: int, clock: nat -> int, k: nat)
    requires Ticking(clock)
    ensures Left(deadline, clock, k + 1) < Left(deadline, clock, k)
  {
  }

  // Before batch n: out of time, or without a token.
  lemma {:induction false} EndsEarly(cursor: Option<string>, n: nat, deadline: int, clock: nat -> int, replies: nat -> Reply,
          err: RunError)
    requires ResumesAt(cursor, n, replies)
    requires if err == NoError then Left(deadline, clock, n) <= 0 else err != InvokeFailed
    ensures Ended(n, deadline, clock, replies, if err == NoError then Some(TimedOut) else None, err)
  {
  }

  // What the loop knows, in terms of the clock.
  lemma {:induction false} LeftMeans(deadline: int, clock: nat -> int, n: nat)
    ensures Left(deadline, clock, n) > 0 <==> clock(n) < deadline
  {
  }

  lemma CountNothing(replies: nat -> Reply)
    ensures BytesIn(replies, 0) == BytesOut(replies, 0) == 0
  {
  }

  lemma CountBatch(replies: nat -> Reply, n: nat)
    ensures replies(n).Done? || replies(n).Continue? ==>
              && BytesIn(replies, n + 1) == BytesIn(replies, n) + replies(n).bytesIn
              && BytesOut(replies, n + 1) == BytesOut(replies, n) + replies(n).bytesOut
    ensures !(replies(n).Done? || replies(n).Continue?) ==>
              BytesIn(replies, n + 1) == BytesIn(replies, n) && BytesOut(replies, n + 1) == BytesOut(replies, n)
  {
  }

  // Each way out of the loop gives the status that goes with it.
  lemma EndsHere(n: nat, deadline: int, clock: nat -> int, replies: nat -> Reply, status: Option<Status>, err: RunError)
    requires match status
             case Some(TimedOut) => err == NoError && clock(n) >= deadline && (n > 0 ==> replies(n - 1).Continue?)
             case Some(Succeeded) => err == NoError && n > 0 && replies(n - 1).Done?
             case Some(Failed) => err == NoError && n > 0 && replies(n - 1).FunctionError?
             case Some(_) => false
             case None => if err == InvokeFailed then n > 0 && replies(n - 1).InvokeError?
                          else err != NoError && (n > 0 ==> replies(n - 1).Continue?)
    ensures Ended(n, deadline, clock, replies, status, err)
  {
  }

  lemma {:induction false} NoBatches(ops: seq<Op>, first: nat, id: RunId, deadline: int, clock: nat -> int, replies: nat -> Reply)
    ensures Sent(ops, first, id, [], deadline, clock, replies) && ResumesAt(None, 0, replies)
  {
    hide RunAll;
  }
}
