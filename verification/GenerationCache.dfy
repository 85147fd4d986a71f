/**
 The list cache of one repository, invalidated by rotating its generation while fetches are in flight
 (internal/gitcore/cache.go).
 */
module GenerationCache {
  import opened Option

  type Key = string
  type Value = string
  type Upstream = map<Key, Value>

  // A call between its steps. `since` is the moment the last invalidation completed before the call
  // computed its key; a blind call failed to read the generation and took "0" for it.
  datatype Call = Call(gen: string, key: Key, since: nat, blind: bool, state: CallState)
  datatype CallState = Keyed | Missed | Fetched(v: Value) | Returned(v: Value) | Error

  // `up` is all upstream has held, oldest first; a moment is a position in it. `born` says when each
  // generation was set.
  datatype World = World(
    up: seq<Upstream>, gen: string, born: map<string, nat>, invalidated: nat, entries: map<(string, Key), Value>, calls: map<nat, Call>)

  datatype Op =
    | Change(to: Upstream)
    | Invalidate(gen: string)
    | Begin(id: nat, key: Key, blind: bool)
    | Lookup(id: nat)
    | Fetch(id: nat)
    | Save(id: nat, stored: bool)
    | Evict(gen: string, key: Key)

  const INITIAL := "0"

  // Nothing is cached yet; upstream may hold anything.
  function Start(init: Upstream): World {
    World([init], INITIAL, map[INITIAL := 0], 0, map[], map[])
  }

  predicate InState(w: World, id: nat, s: CallState) {
    id in w.calls && w.calls[id].state == s
  }

  // Random generations are never drawn twice.
  predicate Legal(w: World, op: Op) {
    match op
    case Invalidate(g) => g !in w.born
    case Begin(id, _, _) => id !in w.calls
    case Lookup(id) => InState(w, id, Keyed)
    case Fetch(id) => InState(w, id, Missed)
    case Save(id, _) => id in w.calls && w.calls[id].state.Fetched?
    case _ => true
  }

  function Moved(w: World, id: nat, s: CallState): World
    requires id in w.calls
  {
    w.(calls := w.calls[id := w.calls[id].(state := s)])
  }

  function Now(w: World): nat
    requires |w.up| > 0
  {
    |w.up| - 1
  }

  function Step(w: World, op: Op): World
    requires |w.up| > 0
  {
    if !Legal(w, op) then w
    else
      match op
      case Change(to) => w.(up := w.up + [to])
      case Invalidate(g) => w.(gen := g, born := w.born[g := Now(w)], invalidated := Now(w))
      case Begin(id, key, blind) =>
        w.(calls := w.calls[id := Call(if blind then INITIAL else w.gen, key, w.invalidated, blind, Keyed)])
      case Lookup(id) =>
        var c := w.calls[id];
        Moved(w, id, if (c.gen, c.key) in w.entries then Returned(w.entries[(c.gen, c.key)]) else Missed)
      case Fetch(id) =>
        var now := w.up[Now(w)];
        Moved(w, id, if w.calls[id].key in now then Fetched(now[w.calls[id].key]) else Error)
      case Save(id, stored) =>
        var c := w.calls[id];
        var v := Moved(w, id, Returned(c.state.v));
        if stored then v.(entries := v.entries[(c.gen, c.key) := c.state.v]) else v
      case Evict(g, k) => w.(entries := w.entries - {(g, k)})
  }

  function Run(init: Upstream, ops: seq<Op>): (w: World)
    ensures |w.up| > 0
  {
    if ops == [] then Start(init) else Step(Run(init, ops[..|ops| - 1]), ops[|ops| - 1])
  }

  // Upstream held v under key at some moment from `from` on.
  ghost predicate HeldSince(w: World, key: Key, v: Value, from: nat) {
    exists t :: from <= t < |w.up| && key in w.up[t] && w.up[t][key] == v
  }

  ghost predicate SoundEntries(w: World) {
    forall g, k :: (g, k) in w.entries ==> g in w.born && HeldSince(w, k, w.entries[(g, k)], w.born[g])
  }

  ghost predicate SoundCall(w: World, c: Call) {
    && c.gen in w.born && c.since < |w.up|
    && (c.blind ==> c.gen == INITIAL)
    && (!c.blind ==> w.born[c.gen] == c.since)
    && (c.state.Fetched? || c.state.Returned? ==> HeldSince(w, c.key, c.state.v, w.born[c.gen]))
  }

  ghost predicate Good(w: World) {
    && |w.up| > 0
    && w.gen in w.born && INITIAL in w.born && w.born[w.gen] == w.invalidated
    && (forall g :: g in w.born ==> w.born[g] < |w.up|)
    && SoundEntries(w)
    && forall id :: id in w.calls ==> SoundCall(w, w.calls[id])
  }

  lemma HeldLater(w: World, v: World, key: Key, x: Value, from: nat)
    requires w.up <= v.up && HeldSince(w, key, x, from)
    ensures HeldSince(v, key, x, from)
  {
    var t :| from <= t < |w.up| && key in w.up[t] && w.up[t][key] == x;
    assert v.up[t] == w.up[t];
  }

  lemma CallLater(w: World, v: World, c: Call)
    requires SoundCall(w, c) && w.up <= v.up && (forall g :: g in w.born ==> g in v.born && v.born[g] == w.born[g])
    ensures SoundCall(v, c)
  {
    hide HeldSince;
    if c.state.Fetched? || c.state.Returned? {
      HeldLater(w, v, c.key, c.state.v, w.born[c.gen]);
    }
  }

  // Old entries and calls stay sound, whatever a step does to the rest.
  lemma StepKeepsOld(w: World, op: Op)
    requires Good(w)
    ensures var v := Step(w, op);
            && w.up <= v.up && (forall g :: g in w.born ==> g in v.born && v.born[g] == w.born[g])
            && (forall g, k :: (g, k) in w.entries ==> g in v.born && HeldSince(v, k, w.entries[(g, k)], v.born[g]))
            && (forall id :: id in w.calls ==> SoundCall(v, w.calls[id]))
  {
    var v := Step(w, op);
    StepExtends(w, op);
    hide HeldSince, Step, Legal, SoundCall;
    forall g, k | (g, k) in w.entries ensures HeldSince(v, k, w.entries[(g, k)], v.born[g]) {
      HeldLater(w, v, k, w.entries[(g, k)], w.born[g]);
    }
    forall id | id in w.calls ensures SoundCall(v, w.calls[id]) {
      CallLater(w, v, w.calls[id]);
    }
  }

  lemma StepExtends(w: World, op: Op)
    requires |w.up| > 0
    ensures w.up <= Step(w, op).up && (forall g :: g in w.born ==> g in Step(w, op).born && Step(w, op).born[g] == w.born[g])
  {
  }

  // What the step gives the one call it moves is sound.
  lemma MovedCallIsSound(w: World, op: Op, id: nat)
    requires Good(w) && id in Step(w, op).calls && (id !in w.calls || Step(w, op).calls[id] != w.calls[id])
    ensures SoundCall(Step(w, op), Step(w, op).calls[id])
  {
    var v := Step(w, op);
    if op.Lookup? {
      var c := w.calls[id];
      if (c.gen, c.key) in w.entries {
        assert HeldSince(w, c.key, w.entries[(c.gen, c.key)], w.born[c.gen]);
        assert HeldSince(v, c.key, w.entries[(c.gen, c.key)], w.born[c.gen]);
      }
    } else if op.Fetch? {
      var c := w.calls[id];
      if c.key in w.up[Now(w)] {
        assert SoundCall(w, c);
        assert Now(w) < |v.up| && c.key in v.up[Now(w)];
      }
    } else if op.Save? {
      assert SoundCall(w, w.calls[id]);
      HeldLater(w, v, w.calls[id].key, w.calls[id].state.v, w.born[w.calls[id].gen]);
    }
  }

  lemma StepIsGood(w: World, op: Op)
    requires Good(w)
    ensures Good(Step(w, op))
  {
    var v := Step(w, op);
    StepKeepsOld(w, op);
    forall id | id in v.calls ensures SoundCall(v, v.calls[id]) {
      if id !in w.calls || v.calls[id] != w.calls[id] {
        MovedCallIsSound(w, op, id);
      }
    }
    forall g, k | (g, k) in v.entries ensures g in v.born && HeldSince(v, k, v.entries[(g, k)], v.born[g]) {
      if (g, k) !in w.entries || v.entries[(g, k)] != w.entries[(g, k)] {
        assert op.Save? && SoundCall(v, w.calls[op.id]);
      }
    }
  }

  lemma {:induction false} EveryRunIsGood(init: Upstream, ops: seq<Op>)
    ensures Good(Run(init, ops))
  {
    if ops != [] {
      hide Good, Step;
      EveryRunIsGood(init, ops[..|ops| - 1]);
      StepIsGood(Run(init, ops[..|ops| - 1]), ops[|ops| - 1]);
    } else {
      assert Good(Start(init));
    }
  }

  /**
   With fetches, writes, evictions and invalidations freely interleaved: what a call returns upstream
   held at some moment no earlier than the last invalidation that completed before the call computed
   its key. Only the call's own read of the generation has to succeed, unless nothing was invalidated yet.
   */
  lemma {:induction false} ReturnsAreFresh(init: Upstream, ops: seq<Op>, id: nat)
    requires id in Run(init, ops).calls && Run(init, ops).calls[id].state.Returned?
    requires !Run(init, ops).calls[id].blind || Run(init, ops).calls[id].since == 0
    ensures var c := Run(init, ops).calls[id]; HeldSince(Run(init, ops), c.key, c.state.v, c.since)
  {
    EveryRunIsGood(init, ops);
  }

  lemma {:induction false} OneMore(init: Upstream, ops: seq<Op>, op: Op)
    ensures Run(init, ops + [op]) == Step(Run(init, ops), op)
  {
    assert (ops + [op])[..|ops|] == ops;
  }

  ghost predicate ReturnedBy(w: World, id: nat, blind: bool, since: nat) {
    id in w.calls && w.calls[id].state.Returned? && w.calls[id].blind == blind && w.calls[id].since == since
  }

  ghost predicate Fresh(w: World, id: nat) {
    id in w.calls && w.calls[id].state.Returned? && HeldSince(w, w.calls[id].key, w.calls[id].state.v, w.calls[id].since)
  }

  // Upstream changes n times, to the same content.
  function Changes(to: Upstream, n: nat): seq<Op> {
    if n == 0 then [] else Changes(to, n - 1) + [Change(to)]
  }

  // v is w after upstream went to `to`, n times.
  ghost predicate Grew(w: World, v: World, to: Upstream, n: nat) {
    && |v.up| == |w.up| + n && w.up <= v.up && v == w.(up := v.up)
    && forall t :: |w.up| <= t < |v.up| ==> v.up[t] == to
  }

  lemma GrowsOnce(w: World, m: World, to: Upstream, n: nat)
    requires |m.up| > 0 && Grew(w, m, to, n)
    ensures Grew(w, Step(m, Change(to)), to, n + 1)
  {
  }

  lemma {:induction false} ChangesRun(init: Upstream, ops: seq<Op>, to: Upstream, n: nat)
    ensures Grew(Run(init, ops), Run(init, ops + Changes(to, n)), to, n)
  {
    if n == 0 {
      assert ops + Changes(to, 0) == ops;
    } else {
      var prev := ops + Changes(to, n - 1);
      assert ops + Changes(to, n) == prev + [Change(to)];
      hide Run, Step, Grew;
      ChangesRun(init, ops, to, n - 1);
      OneMore(init, prev, Change(to));
      GrowsOnce(Run(init, ops), Run(init, prev), to, n - 1);
    }
  }

  // A call that caches what upstream holds.
  function CacheIt(key: Key): seq<Op> {
    [Begin(1, key, false)] + [Lookup(1)] + [Fetch(1)] + [Save(1, true)]
  }

  lemma {:induction false} CachedBefore(key: Key, v: Value)
    ensures var w := Run(map[key := v], CacheIt(key));
            && w.up == [map[key := v]] && w.entries == map[(INITIAL, key) := v] && w.born == map[INITIAL := 0]
            && w.calls.Keys == {1} && w.gen == INITIAL
  {
    var init := map[key := v];
    var a := [Begin(1, key, false)];
    var b := a + [Lookup(1)];
    var c := b + [Fetch(1)];
    OneMore(init, [], Begin(1, key, false));
    assert [] + a == a;
    OneMore(init, a, Lookup(1));
    OneMore(init, b, Fetch(1));
    OneMore(init, c, Save(1, true));
  }

  // The old value is cached, then upstream holds the new one and is invalidated; a later call fails to
  // read the generation.
  function StaleRun(key: Key, new': Value, since: nat): seq<Op> {
    CacheIt(key) + Changes(map[key := new'], since) + [Invalidate("g")] + [Begin(2, key, true)] + [Lookup(2)]
  }

  /**
   The generation read has to succeed: after any invalidation, a blind call can return any value that was
   replaced before it.
   */
  lemma {:induction false} BlindReadsCanBeStale(key: Key, old': Value, new': Value, since: nat)
    requires old' != new' && since > 0
    ensures var w := Run(map[key := old'], StaleRun(key, new', since));
            ReturnedBy(w, 2, true, since) && w.calls[2].key == key && w.calls[2].state.v == old' && !Fresh(w, 2)
  {
    var init, to := map[key := old'], map[key := new'];
    CachedBefore(key, old');
    ChangesRun(init, CacheIt(key), to, since);
    var a := CacheIt(key) + Changes(to, since);
    var b := a + [Invalidate("g")];
    var c := b + [Begin(2, key, true)];
    OneMore(init, a, Invalidate("g"));
    OneMore(init, b, Begin(2, key, true));
    OneMore(init, c, Lookup(2));
    hide Run;
  }

  /** Which calls can be relied on: those that read the generation, and those before any invalidation. */
  lemma {:induction false} FreshExactlyWhen(blind: bool, since: nat)
    ensures (forall init, ops, id :: ReturnedBy(Run(init, ops), id, blind, since) ==> Fresh(Run(init, ops), id)) <==> !blind || since == 0
  {
    hide Run, HeldSince;
    if !blind || since == 0 {
      forall init, ops, id | ReturnedBy(Run(init, ops), id, blind, since) ensures Fresh(Run(init, ops), id) {
        ReturnsAreFresh(init, ops, id);
      }
    } else {
      BlindReadsCanBeStale("k", "old", "new", since);
      var init := map["k" := "old"];
      assert ReturnedBy(Run(init, StaleRun("k", "new", since)), 2, blind, since);
    }
  }

  predicate OwnStep(op: Op, id: nat) {
    (op.Begin? || op.Lookup? || op.Fetch? || op.Save?) && op.id == id
  }

  /** The service, with every other call, invalidation and upstream change in between its own steps. */
  class Service {
    // What upstream held at first.
    const init: Upstream
    var w: World
    var others: seq<seq<Op>>
    ghost var ops: seq<Op>

    ghost predicate Valid()
      reads this
    {
      w == Run(init, ops)
    }

    // The others take their turn; the call `id` is not theirs.
    method Interfere(id: nat)
      requires Valid()
      modifies this
      ensures Valid() && old(ops) <= ops && old(w).up <= w.up
      ensures id in old(w).calls ==> id in w.calls && w.calls[id] == old(w).calls[id]
      ensures id !in old(w).calls ==> id !in w.calls
      ensures old(others) == [] ==> others == [] && w == old(w)
    {
      hide Run, Step;
      if others != [] {
        var batch := others[0];
        others := others[1..];
        for k := 0 to |batch|
          invariant Valid() && old(ops) <= ops && old(w).up <= w.up
          invariant id in old(w).calls ==> id in w.calls && w.calls[id] == old(w).calls[id]
          invariant id !in old(w).calls ==> id !in w.calls
        {
          if !OwnStep(batch[k], id) {
            OthersLeaveCall(w, batch[k], id);
            StepExtends(w, batch[k]);
            OneMore(init, ops, batch[k]);
            w := Step(w, batch[k]);
            ops := ops + [batch[k]];
          }
        }
      }
    }

    method Do(op: Op)
      requires Valid()
      modifies this`w, this`ops
      ensures Valid() && ops == old(ops) + [op] && w == Step(old(w), op) && old(w).up <= w.up
    {
      hide Run, Step;
      StepExtends(w, op);
      OneMore(init, ops, op);
      w := Step(w, op);
      ops := ops + [op];
    }

    // A call that found nothing cached asks upstream and caches the answer.
    method FetchThrough(id: nat, stored: bool) returns (r: Option<Value>)
      requires Valid() && |w.up| > 0 && InState(w, id, Missed) && w.calls[id].since < |w.up|
      modifies this
      ensures Valid() && old(ops) <= ops && old(w).up <= w.up && id in w.calls
      ensures var c := old(w).calls[id];
              && w.calls[id] == c.(state := if r.Some? then Returned(r.value) else Error)
              && (r == None ==> exists t :: c.since <= t < |w.up| && c.key !in w.up[t])
      ensures old(others) == [] ==>
                && others == [] && w.up == old(w).up && w.gen == old(w).gen && var c := old(w).calls[id];
                   r == (if c.key in w.up[Now(w)] then Some(w.up[Now(w)][c.key]) else None)
                   && w.entries == if r.Some? && stored then old(w).entries[(c.gen, c.key) := r.value] else old(w).entries
    {
      hide Run, Step;
      Interfere(id);
      FetchEffect(w, id);
      Do(Fetch(id));
      if w.calls[id].state == Error {
        assert w.calls[id].key !in w.up[Now(w)];
        return None;
      }
      Interfere(id);
      SaveEffect(w, id, stored);
      Do(Save(id, stored));
      return Some(w.calls[id].state.v);
    }

    /**
     A list call through the cache, under an id of its own. What it returns upstream held no earlier
     than the last invalidation completed before it computed its key, and it fails only when upstream then
     lacked the key; left alone it returns what is
     cached, or what upstream holds now, which it then caches.
     */
    method Cached(id: nat, key: Key, stored: bool) returns (r: Option<Value>, ghost since: nat)
      requires Valid() && id !in w.calls
      modifies this
      ensures Valid() && old(ops) <= ops && old(w).up <= w.up
      ensures old(w).invalidated <= since < |w.up|
      ensures r.Some? ==> HeldSince(w, key, r.value, since)
      ensures r == None ==> exists t :: since <= t < |w.up| && key !in w.up[t]
      ensures old(others) == [] ==>
                && w.up == old(w).up && w.gen == old(w).gen
                && if (w.gen, key) in old(w).entries then r == Some(old(w).entries[(w.gen, key)]) && w.entries == old(w).entries
                   else if key in w.up[Now(w)] then
                     && r == Some(w.up[Now(w)][key])
                     && w.entries == (if stored then old(w).entries[(w.gen, key) := w.up[Now(w)][key]] else old(w).entries)
                   else r == None && w.entries == old(w).entries
    {
      hide Run, Good, HeldSince, Step;
      ghost var w0, o0 := w, ops;
      Interfere(id);
      InvalidatedGrows(init, o0, ops);
      since := w.invalidated;
      ghost var call := Call(w.gen, key, since, false, Keyed);
      BeginEffect(w, id, key);
      Do(Begin(id, key, false));
      Interfere(id);
      LookupEffect(w, id);
      Do(Lookup(id));
      if w.calls[id].state == Missed {
        r := FetchThrough(id, stored);
      } else {
        r := Some(w.calls[id].state.v);
      }
      InvalidatedBound(init, ops, id);
      if r.Some? {
        ReturnsAreFresh(init, ops, id);
      }
    }

    /** Rotates the generation, to one never used before: nothing cached so far is found any more. */
    method InvalidateRepo(gen: string, broken: bool) returns (err: bool)
      requires Valid() && gen !in w.born
      modifies this`w, this`ops
      ensures Valid() && err == broken
      ensures err ==> w == old(w) && ops == old(ops)
      ensures !err ==> && ops == old(ops) + [Invalidate(gen)] && w.up == old(w).up && w.invalidated == |w.up| - 1
                       && forall k :: (w.gen, k) !in w.entries
    {
      hide Run, Good;
      if broken {
        return true;
      }
      EveryRunIsGood(init, ops);
      NoEntryOf(w, gen);
      Do(Invalidate(gen));
      return false;
    }
  }

  lemma BeginEffect(w: World, id: nat, key: Key)
    requires |w.up| > 0 && id !in w.calls
    ensures Step(w, Begin(id, key, false)) == w.(calls := w.calls[id := Call(w.gen, key, w.invalidated, false, Keyed)])
  {
  }

  lemma LookupEffect(w: World, id: nat)
    requires |w.up| > 0 && InState(w, id, Keyed)
    ensures var c := w.calls[id];
            Step(w, Lookup(id)) == Moved(w, id, if (c.gen, c.key) in w.entries then Returned(w.entries[(c.gen, c.key)]) else Missed)
  {
  }

  lemma FetchEffect(w: World, id: nat)
    requires |w.up| > 0 && InState(w, id, Missed)
    ensures var now, key := w.up[Now(w)], w.calls[id].key;
            Step(w, Fetch(id)) == Moved(w, id, if key in now then Fetched(now[key]) else Error)
  {
  }

  lemma SaveEffect(w: World, id: nat, stored: bool)
    requires |w.up| > 0 && id in w.calls && w.calls[id].state.Fetched?
    ensures var c := w.calls[id];
            Step(w, Save(id, stored)) == Moved(w, id, Returned(c.state.v)).(
              entries := if stored then w.entries[(c.gen, c.key) := c.state.v] else w.entries)
  {
  }

  lemma NoEntryOf(w: World, g: string)
    requires Good(w) && g !in w.born
    ensures forall k :: (g, k) !in w.entries
  {
  }

  lemma OthersLeaveCall(w: World, op: Op, id: nat)
    requires |w.up| > 0 && !OwnStep(op, id)
    ensures id in w.calls ==> id in Step(w, op).calls && Step(w, op).calls[id] == w.calls[id]
    ensures id !in w.calls ==> id !in Step(w, op).calls
  {
  }

  lemma {:induction false} InvalidatedBound(init: Upstream, ops: seq<Op>, id: nat)
    requires id in Run(init, ops).calls
    ensures Run(init, ops).calls[id].since < |Run(init, ops).up|
  {
    EveryRunIsGood(init, ops);
  }

  lemma {:induction false} InvalidatedGrows(init: Upstream, before: seq<Op>, after: seq<Op>)
    requires before <= after
    ensures Run(init, before).invalidated <= Run(init, after).invalidated < |Run(init, after).up|
    decreases |after|
  {
    EveryRunIsGood(init, after);
    if before != after {
      var prev := after[..|after| - 1];
      InvalidatedGrows(init, before, prev);
      OneMore(init, prev, after[|after| - 1]);
      assert after == prev + [after[|after| - 1]];
      hide Run, Good;
    }
  }
}
