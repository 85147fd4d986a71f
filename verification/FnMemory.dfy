/** The in-memory store (internal/fn/memstore.go) carries out the steps of the interleaving model. */
module FnMemory {
  import opened Option
  import opened FnStore
  import opened FnRuns

  /** The store call of a step, made on the in-memory store, leaves it as the step leaves the model's database. */
  method Perform(m: MemStore, w: World, op: Op)
    requires m.Value() == w.db && Legal(w, op)
    modifies m
    ensures m.Value() == Effect(w, op).db
  {
    hide NameTaken, CanStart, Started, Finished, CanSetCron, CronSet, Revoked, Due;
    match op
    case Deploy(f) =>
      var _ := m.CreateFunction(f);
    case Remove(fn) =>
      m.DeleteFunction(fn);
    case Enqueue(id, fn, now, _) =>
      m.EnqueueRun(NewRun(w.known[fn], id, now));
    case TryStart(id, node, now) =>
      var _ := m.TryStart(id, node, now);
    case MintClaim(id, hash, now) =>
      m.PutToken(hash, ClaimToken(w, id, now));
    case ClaimFails(id, now) =>
      var _ := m.FinishRun(id, Report(Failed, None, 0, 0, MINT_FAILED, now));
    case CheckRunning(_) =>
    case Wipe(id, now) =>
      m.RevokeRunTokens(id, now);
    case MintBatch(id, hash, now) =>
      m.PutToken(hash, BatchToken(w, id, now));
    case Finish(id, r) =>
      var _ := m.FinishRun(id, r);
    case Revoke(id, now) =>
      m.RevokeRunTokens(id, now);
    case Cron(fn, last, now) =>
      var _ := m.CASLastCron(fn, last, now);
  }
}
