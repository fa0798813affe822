/**
 Preemption that goes too far: every preempted request gives back at least one block, so exactly a
 lone request with no free block left is preempted itself; the decode batch is then empty, and
 the failing pass drops that request and everything that waits.
 */
module ServingPreempt {
  import opened Basics
  import opened Tokens
  import opened PoolSpec
  import opened CacheSpec
  import opened RadixSpec
  import opened RadixUpdate
  import opened RadixInsertEvict
  import opened ServingState
  import opened ServingCore
  import opened Serving
  import opened ServingAdmit
  import opened ServingForward
  import opened ServingRun
  import opened ServingSolo

  // ---------------------------------------------------------------- what a preemption frees

  /** Freeing the last references of a block puts one more block on the free list. */
  lemma {:induction false} FreeGains(p: Pool, ids: seq<nat>, b: nat)
    requires PoolOk(p) && Covered(p, ids) && b < |p.ref| && Count(ids, b) == p.ref[b] > 0
    ensures |Free(p, ids).1.free| > |p.free|
    decreases ids
  {
    assert ids != [] && Allocated(p, ids[0]) by { assert Count(ids, ids[0]) >= 1; }
    var q := Decr(p, ids[0]);
    DecrKeeps(p, ids[0]);
    CoveredStep(p, ids);
    if p.ref[ids[0]] == 1 {
      FreeKeeps(q, ids[1..]);
    } else {
      FreeGains(q, ids[1..], b);
    }
  }

  /** A request past its prefill holds a block beyond its adopted prefix. */
  lemma HoldsOwn(cfg: Config, r: Req)
    requires ConfigOk(cfg) && Ready(cfg, r)
    ensures r.shared < |r.kv.table|
  {
    CeilBounds(r.kv.cursor, cfg.bs);
    if |r.kv.table| <= r.shared { MulMono(|r.kv.table|, r.shared, cfg.bs); }
  }

  lemma OwnBlock(cfg: Config, p: Pool, t: Tree, rs: seq<Req>, i: nat, lost: seq<nat>)
    requires ConfigOk(cfg) && Core(cfg, p, t, rs, [], -1, lost) && i < |rs| && rs[i].shared < |rs[i].kv.table|
    ensures |Free(p, rs[i].kv.table).1.free| > |p.free|
  {
    var r := rs[i];
    var b := r.kv.table[r.shared];
    SoleOwner(cfg, p, t, rs, i, r.shared, lost);
    ReleaseCovered(p, t, rs, i, lost);
    CountZero(r.kv.table, b);
    hide Core, Owned;
    FreeGains(p, r.kv.table, b);
  }

  lemma PreemptGains(cfg: Config, s: Sys)
    requires ConfigOk(cfg) && Inv(cfg, s) && s.pc.Idle? && s.running != []
    requires s.running[|s.running| - 1].pin.Some? ==> s.running[|s.running| - 1].pin.value in s.tree.nodes
    ensures |PreemptLast(s).pool.free| > |s.pool.free| && |PreemptLast(s).running| == |s.running| - 1
    ensures PreemptLast(s).waiting == [Cleared(s.running[|s.running| - 1], Waiting)] + s.waiting
    ensures PreemptLast(s) == s.(tree := PreemptLast(s).tree, pool := PreemptLast(s).pool, running := s.running[..|s.running| - 1], waiting := PreemptLast(s).waiting)
  {
    hide Core, Free, UnpinOf, Ready;
    var i := |s.running| - 1;
    LastReady(cfg, s);
    HoldsOwn(cfg, s.running[i]);
    OwnBlock(cfg, s.pool, s.tree, s.running, i, s.lost);
  }

  lemma LastReady(cfg: Config, s: Sys)
    requires ConfigOk(cfg) && Inv(cfg, s) && s.pc.Idle? && s.running != []
    ensures Ready(cfg, s.running[|s.running| - 1]) && Core(cfg, s.pool, s.tree, s.running, [], -1, s.lost)
  {
    hide Core, Ready;
  }

  // ---------------------------------------------------------------- the empty decode batch

  /** One request runs and no block is free. */
  predicate Starved(s: Sys) {
    |s.running| == 1 && s.pool.free == []
  }

  /** Preemption leaves nothing running exactly when a lone request has no free block. */
  lemma PreemptEmptyIff(cfg: Config, s: Sys)
    requires ConfigOk(cfg) && Inv(cfg, s) && s.pc.Idle? && s.running != []
    ensures PreemptLoop(cfg, s).running == [] <==> Starved(s)
    ensures Starved(s) ==>
      PreemptLoop(cfg, s).waiting == [Cleared(s.running[0], Waiting)] + s.waiting
      && PreemptLoop(cfg, s).done == s.done && PreemptLoop(cfg, s).fault == s.fault
    decreases |s.running|
  {
    hide Inv, PreemptLast;
    if |s.pool.free| < |s.running| {
      PreemptKeeps(cfg, s);
      PreemptGains(cfg, s);
      var u := PreemptLast(s);
      assert PreemptLoop(cfg, s) == PreemptLoop(cfg, u);
      if u.running == [] {
        assert PreemptLoop(cfg, u) == u;
      } else {
        PreemptEmptyIff(cfg, u);
      }
    }
  }

  /** A tick ends in an empty decode batch exactly when it admits nobody and the only request running has no free block. */
  lemma EmptyBatchIff(cfg: Config, s: Sys, order: seq<nat>)
    requires ConfigOk(cfg) && Inv(cfg, s) && s.pc.Idle?
    ensures var u, a := Tick(cfg, s, order), Settled(cfg, s, order);
      u.pc.Decoding? && u.running == [] <==> !a.broken && a.sys.pc == Prefilling(0) && Starved(a.sys)
  {
    hide Inv, Budgeted, AdmitLoop, PreemptLoop, Safe;
    var cleared := ReleaseAll(cfg, s, order).(aborted := {});
    AbortedKeeps(cfg, ReleaseAll(cfg, s, order));
    StartKeeps(cfg, cleared);
    var a := AdmitLoop(cfg, cleared.(pc := Prefilling(0)), |cleared.pool.free|);
    if !a.broken && a.sys.pc.k == 0 {
      PcKeeps(cfg, a.sys, Idle);
      var idle := a.sys.(pc := Idle);
      if idle.running != [] { PreemptEmptyIff(cfg, idle); }
    }
  }

  // ---------------------------------------------------------------- what the failing pass drops

  /** `es` are exactly the requests of `rs`, in order, none of them normally ended. */
  ghost predicate Dropped(rs: seq<Req>, es: seq<Ended>) {
    && |es| == |rs|
    && forall i {:trigger es[i]} {:trigger rs[i]} :: 0 <= i < |rs| ==>
      !es[i].normal && es[i].req.id == rs[i].id && es[i].req.prompt == rs[i].prompt && es[i].req.gen == rs[i].gen
  }

  /** Failing drops the running requests, then the waiting ones, each with what it has generated so far. */
  lemma {:induction false} FailAllDrops(cfg: Config, s: Sys)
    requires ConfigOk(cfg) && Safe(cfg, s)
    ensures var u := FailAll(cfg, s);
      |s.done| <= |u.done| && u.done[..|s.done|] == s.done && Dropped(s.running + s.waiting, u.done[|s.done|..])
    decreases |s.running|, |s.waiting|
  {
    hide Safe, Inv, Dropped, ReleaseRunning, ReleaseWaiting, FailAll;
    if s.running != [] {
      FailRunning(cfg, s);
      var v := ReleaseRunning(s, 0);
      FailAllDrops(cfg, v);
      assert s.running + s.waiting == [s.running[0]] + (v.running + v.waiting);
      DropNext(s.running[0], Ended(Cleared(s.running[0], Finished), false), v.running + v.waiting, s.done, FailAll(cfg, v).done);
    } else if s.waiting != [] {
      FailWaiting(cfg, s);
      var v := ReleaseWaiting(s, 0);
      FailAllDrops(cfg, v);
      assert s.running + s.waiting == [s.waiting[0]] + (v.running + v.waiting);
      DropNext(s.waiting[0], Ended(s.waiting[0].(phase := Finished), false), v.running + v.waiting, s.done, FailAll(cfg, v).done);
    } else {
      FailEmpty(cfg, s);
      DropNone(s.done);
    }
  }

  lemma DropNone(done: seq<Ended>)
    ensures Dropped([] + [], done[|done|..])
  {}

  lemma DropNext(r: Req, e: Ended, rs: seq<Req>, before: seq<Ended>, after: seq<Ended>)
    requires !e.normal && e.req.id == r.id && e.req.prompt == r.prompt && e.req.gen == r.gen
    requires |before| + 1 <= |after| && after[..|before| + 1] == before + [e] && Dropped(rs, after[|before| + 1..])
    ensures after[..|before|] == before && Dropped([r] + rs, after[|before|..])
  {
    assert after[..|before|] == after[..|before| + 1][..|before|];
    assert after[|before|] == after[..|before| + 1][|before|] == e;
    assert after[|before|..] == [e] + after[|before| + 1..];
    var es := after[|before|..];
    forall i {:trigger es[i]} {:trigger ([r] + rs)[i]} | 0 <= i < |[r] + rs|
      ensures !es[i].normal && es[i].req.id == ([r] + rs)[i].id && es[i].req.prompt == ([r] + rs)[i].prompt && es[i].req.gen == ([r] + rs)[i].gen
    {
      if i > 0 { assert es[i] == after[|before| + 1..][i - 1] && ([r] + rs)[i] == rs[i - 1]; }
    }
  }

  /**
   A tick that reaches preemption with one request running and no block free loses everything: the
   request is preempted, the batch is empty, and the failing pass drops it and all that wait.
   */
  lemma LoneRequestLost(cfg: Config, s: Sys)
    requires ConfigOk(cfg) && Inv(cfg, s) && s.pc.Idle? && !s.fault && Starved(s)
    ensures var u := PreemptLoop(cfg, s).(pc := Decoding);
      && Inv(cfg, u) && Funded(cfg, u) && !u.fault && u.running == []
      && Forward(cfg, u).running == Forward(cfg, u).waiting == [] && !Forward(cfg, u).fault
      && |s.done| <= |Forward(cfg, u).done|
      && Dropped([Cleared(s.running[0], Waiting)] + s.waiting, Forward(cfg, u).done[|s.done|..])
  {
    hide Inv, PreemptLoop, PrepareFrom, Funded, Safe, Dropped;
    PreemptEmptyIff(cfg, s);
    var v := PreemptLoop(cfg, s);
    PcKeeps(cfg, v, Decoding);
    var u := v.(pc := Decoding);
    EmptyFunded(cfg, u);
    BatchFresh(cfg, u);
    PrepareAll(cfg, u, 0, 0, 0, true);
    PrepareNone(cfg, u);
    FailAllDrops(cfg, u);
    FailAllFault(cfg, u);
    assert u.running + u.waiting == u.waiting;
  }

  lemma EmptyFunded(cfg: Config, s: Sys)
    requires ConfigOk(cfg) && s.running == [] && s.pc.Decoding?
    ensures Funded(cfg, s) && BatchStart(s) == 0
  {}

  lemma PrepareNone(cfg: Config, s: Sys)
    requires ConfigOk(cfg) && s.running == []
    ensures PrepareFrom(cfg, s, 0, 0, true) == (true, s)
  {}
}
