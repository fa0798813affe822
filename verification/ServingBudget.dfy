/**
 The admission budget once references have been lost. Eviction reports a block that still carries a
 lost reference as freed, though it is not; the budget is then too high by exactly those blocks, and a
 prefill batch is short exactly when they outnumber what the budget had left over.
 */
module ServingBudget {
  import opened Basics
  import opened Tokens
  import opened PoolSpec
  import opened CacheSpec
  import opened RadixSpec
  import opened RadixUpdate
  import opened RadixInsertEvict
  import opened ServingState
  import opened ServingCore
  import opened Serving
  import opened ServingAdmit
  import opened ServingForward
  import opened ServingRun
  import opened ServingTheorems

  /** The blocks eviction reports as freed in one admission attempt. */
  function Reported(cfg: Config, s: Sys, budget: int): seq<nat>
    requires ConfigOk(cfg) && TreeOk(s.tree, Handles(s.running)) && s.pc.Prefilling?
    requires s.waiting != [] && s.waiting[0].Seq() != []
  {
    hide Shape, LruOk, PinsOk, Evict, Chunks, CeilDiv, Touch, Pin, Walk;
    TreeParts(s.tree, Handles(s.running));
    var r := s.waiting[0];
    var x := LookupKey(cfg, r);
    var needed := CeilDiv(|r.Seq()|, cfg.bs) - |Matched(s.tree, x)|;
    if budget + Touch(s.tree, Find(s.tree, x).0).evictable - Reserves(cfg, s.running) - cfg.reserve(Remaining(r)) < needed then []
    else
      PinnedStays(s.tree, Handles(s.running), x, needed - budget);
      Evict(Pinned(s.tree, x), needed - budget).1
  }

  lemma EvictedFree(cfg: Config, p: Pool, t: Tree, rs: seq<Req>, x: seq<Chunk>, need: int, lost: seq<nat>)
    requires ConfigOk(cfg) && Core(cfg, p, t, rs, [], -1, lost)
    ensures Shape(Pinned(t, x)) && LruOk(Pinned(t, x))
    ensures var freed := Evict(Pinned(t, x), need).1;
      |Free(p, freed).1.free| == |p.free| + |freed| - Stray(freed, lost)
      && Ref(Free(p, freed).1, Matched(t, x)).1.free == Free(p, freed).1.free
  {
    hide Core, Shape, LruOk, Evict, Free, Ref, Find, Walk, Matched, Pinned;
    CorePins(cfg, p, t, rs, lost);
    PinnedStays(t, Handles(rs), x, need);
    PinnedCore(cfg, p, t, rs, x, lost);
    var freed := Evict(Pinned(t, x), need).1;
    CoreEvict(cfg, p, Pinned(t, x), rs, Extra(Matched(t, x), Find(t, x).0), need, lost);
    RefFree(Free(p, freed).1, Matched(t, x));
  }

  lemma {:induction false} RefFree(p: Pool, ids: seq<nat>)
    ensures Ref(p, ids).1.free == p.free
    decreases ids
  {
    if ids != [] && Allocated(p, ids[0]) {
      RefFree(p.(ref := p.ref[ids[0] := p.ref[ids[0]] + 1]), ids[1..]);
    }
  }

  /** Free blocks not yet promised to this tick's requests. */
  function Spare(cfg: Config, s: Sys): int
    requires ConfigOk(cfg) && s.pc.Prefilling? && s.pc.k <= |s.running|
  {
    |s.pool.free| - Need(cfg, s.running[|s.running| - s.pc.k..])
  }

  /** What one attempt does to budget and spare blocks. */
  lemma AttemptBudget(cfg: Config, s: Sys, budget: int)
    requires ConfigOk(cfg) && Budgeted(cfg, s, budget) && s.waiting != []
    requires TreeOk(s.tree, Handles(s.running)) && s.waiting[0].Seq() != [] && !AdmitOne(cfg, s, budget).Overflow?
    ensures var a, freed := AdmitOne(cfg, s, budget), Reported(cfg, s, budget);
      && s.pc.k <= |s.running| && a.sys.pc.Prefilling? && a.sys.pc.k <= |a.sys.running|
      && (a.Refused? ==> Spare(cfg, a.sys) == Spare(cfg, s) + |freed| - Stray(freed, s.lost))
      && (a.Admitted? ==> a.budget - Spare(cfg, a.sys) == budget - Spare(cfg, s) + Stray(freed, s.lost))
  {
    hide Budgeted, Core, TreeOk, Shape, LruOk, Inv, Adopted, Pending, Evict, Free, Ref, Find, Walk, Matched, Pinned, StopsAt, Chunks, CeilDiv, Need, Unpin, Without;
    BudgetedCore(cfg, s, budget);
    BudgetedCount(cfg, s, budget);
    var r := s.waiting[0];
    var x := LookupKey(cfg, r);
    var blocks := Matched(s.tree, x);
    var need := CeilDiv(|r.Seq()|, cfg.bs) - |blocks| - budget;
    EvictedFree(cfg, s.pool, s.tree, s.running, x, need, s.lost);
    var a := AdmitOne(cfg, s, budget);
    if a.Admitted? {
      var i := Installed(cfg, r, blocks, Find(s.tree, x).0);
      InstalledNeed(cfg, r, blocks, Find(s.tree, x).0);
      var from := |s.running| - s.pc.k;
      assert a.sys.running[|a.sys.running| - a.sys.pc.k..] == s.running[from..] + [i];
      NeedConcat(cfg, s.running[from..], [i]);
    }
  }

  lemma BudgetedCount(cfg: Config, s: Sys, budget: int)
    requires ConfigOk(cfg) && Budgeted(cfg, s, budget)
    ensures s.pc.k <= |s.running|
  {}

  lemma InstalledNeed(cfg: Config, r: Req, blocks: seq<nat>, n: int)
    requires ConfigOk(cfg) && Parked(r)
    ensures Need(cfg, [Installed(cfg, r, blocks, n)]) == CeilDiv(|r.Seq()|, cfg.bs) - |blocks|
  {
    var i := Installed(cfg, r, blocks, n);
    assert Need(cfg, [i]) == NeedOf(cfg, i) + Need(cfg, []);
  }

  /** Blocks with lost references among those the loop's evictions report. */
  function Strayed(cfg: Config, s: Sys, budget: int): nat
    requires ConfigOk(cfg) && Budgeted(cfg, s, budget)
    decreases |s.waiting|
  {
    hide Budgeted, Inv, TreeOk, Core, Shape, AdmitOne, Parked, Handles, Need, Safe, Reported;
    BudgetedCore(cfg, s, budget);
    if s.waiting == [] then 0
    else
      AttemptShape(cfg, s, budget);
      AttemptKeeps(cfg, s, budget);
      var a := AdmitOne(cfg, s, budget);
      Stray(Reported(cfg, s, budget), s.lost) + if a.Admitted? then Strayed(cfg, a.sys, a.budget) else 0
  }

  /** The budget when the loop ends. */
  function InHand(cfg: Config, s: Sys, budget: int): int
    requires ConfigOk(cfg) && Budgeted(cfg, s, budget)
    decreases |s.waiting|
  {
    hide Budgeted, Inv, TreeOk, Core, Shape, AdmitOne, Parked, Handles, Need, Safe, Reported;
    BudgetedCore(cfg, s, budget);
    if s.waiting == [] then budget
    else
      AttemptShape(cfg, s, budget);
      AttemptKeeps(cfg, s, budget);
      var a := AdmitOne(cfg, s, budget);
      if a.Admitted? then InHand(cfg, a.sys, a.budget) else budget + |Reported(cfg, s, budget)|
  }

  lemma {:induction false} LoopBudget(cfg: Config, s: Sys, budget: int)
    requires ConfigOk(cfg) && Budgeted(cfg, s, budget) && !AdmitLoop(cfg, s, budget).broken
    ensures var u := AdmitLoop(cfg, s, budget).sys;
      && s.pc.k <= |s.running| && u.pc.Prefilling? && u.pc.k <= |u.running|
      && InHand(cfg, s, budget) - Spare(cfg, u) == budget - Spare(cfg, s) + Strayed(cfg, s, budget)
    decreases |s.waiting|
  {
    hide Budgeted, Inv, TreeOk, Core, Shape, AdmitOne, Parked, Handles, Safe, Reported, Spare;
    BudgetedCore(cfg, s, budget);
    BudgetedCount(cfg, s, budget);
    if s.waiting != [] {
      AttemptShape(cfg, s, budget);
      AttemptKeeps(cfg, s, budget);
      AttemptBudget(cfg, s, budget);
      var a := AdmitOne(cfg, s, budget);
      if a.Admitted? { LoopBudget(cfg, a.sys, a.budget); }
    }
  }

  /** The state in which a tick starts to admit, with its budget. */
  function Begun(cfg: Config, s: Sys, order: seq<nat>): (u: Sys)
    requires ConfigOk(cfg) && Inv(cfg, s) && s.pc.Idle?
    ensures Budgeted(cfg, u, |u.pool.free|)
  {
    hide Inv, Budgeted;
    var cleared := ReleaseAll(cfg, s, order).(aborted := {});
    AbortedKeeps(cfg, ReleaseAll(cfg, s, order));
    StartKeeps(cfg, cleared);
    cleared.(pc := Prefilling(0))
  }

  /**
   A tick that starts a prefill leaves its batch short exactly when its evictions reported more blocks
   with lost references than its budget had left over.
   */
  lemma UnderfundedIff(cfg: Config, s: Sys, order: seq<nat>)
    requires ConfigOk(cfg) && Inv(cfg, s) && s.pc.Idle? && Tick(cfg, s, order).pc.Prefilling?
    ensures var b := Begun(cfg, s, order);
      Underfunded(cfg, Tick(cfg, s, order)) <==> Strayed(cfg, b, |b.pool.free|) > InHand(cfg, b, |b.pool.free|)
  {
    hide Inv, Budgeted, AdmitLoop, Strayed, InHand, PreemptLoop, Safe, FailAll;
    var b := Begun(cfg, s, order);
    var a := AdmitLoop(cfg, b, |b.pool.free|);
    if !a.broken {
      LoopBudget(cfg, b, |b.pool.free|);
      assert b.running[|b.running|..] == [];
    }
  }
}
