/** One request in an otherwise empty system: what a tick and a pass do to it, spelled out. */
module ServingSolo {
  import opened Basics
  import opened Tokens
  import opened PoolSpec
  import opened CacheSpec
  import opened RadixSpec
  import opened RadixUpdate
  import opened RadixInsertEvict
  import opened ServingState
  import opened ServingCore
  import opened Serving
  import opened ServingAdmit
  import opened ServingForward
  import opened ServingRun

  lemma RunMore(cfg: Config, n: nat, acts: seq<Action>, a: Action)
    requires ConfigOk(cfg)
    ensures Run(cfg, n, acts + [a]) == Step(cfg, Run(cfg, n, acts), a)
  {
    hide Step;
    assert (acts + [a])[..|acts|] == acts;
  }

  /** Enough blocks without evicting. */
  predicate Affordable(cfg: Config, s: Sys, r: Req)
    requires ConfigOk(cfg) && Shape(s.tree) && r.Seq() != []
  {
    var x := LookupKey(cfg, r);
    var needed := CeilDiv(|r.Seq()|, cfg.bs) - |Matched(s.tree, x)|;
    && needed <= |s.pool.free|
    && needed <= |s.pool.free| + Touch(s.tree, Find(s.tree, x).0).evictable - cfg.reserve(Remaining(r))
  }

  /** And the match below the length limit. */
  predicate Room(cfg: Config, s: Sys, r: Req)
    requires ConfigOk(cfg) && Shape(s.tree) && r.Seq() != []
  {
    Affordable(cfg, s, r) && |Matched(s.tree, LookupKey(cfg, r))| * cfg.bs < cfg.maxLen
  }

  /** The state once request `r` is admitted. */
  function Joined(cfg: Config, s: Sys, r: Req): Sys
    requires ConfigOk(cfg) && Shape(s.tree) && r.Seq() != [] && s.waiting != []
  {
    var x := LookupKey(cfg, r);
    var blocks := Matched(s.tree, x);
    s.(tree := Pinned(s.tree, x), pool := Ref(s.pool, blocks).1,
       running := s.running + [Installed(cfg, r, blocks, Find(s.tree, x).0)],
       waiting := s.waiting[1..], pc := Prefilling(PendingCount(s) + 1))
  }

  lemma RoomAdmits(cfg: Config, s: Sys, budget: int)
    requires ConfigOk(cfg) && TreeOk(s.tree, Handles(s.running)) && s.pc.Prefilling?
    requires s.waiting != [] && Parked(s.waiting[0]) && s.running == [] && budget == |s.pool.free|
    requires Shape(s.tree) && Room(cfg, s, s.waiting[0])
    ensures AdmitOne(cfg, s, budget).Admitted? && AdmitOne(cfg, s, budget).sys == Joined(cfg, s, s.waiting[0])
    ensures AdmitOne(cfg, s, budget).budget == budget + |Matched(s.tree, LookupKey(cfg, s.waiting[0]))| - CeilDiv(|s.waiting[0].Seq()|, cfg.bs)
  {
    hide TreeOk, Shape, LruOk, Evict, Free, Ref, Find, Matched, Pinned, Chunks, CeilDiv, Touch;
    var r := s.waiting[0];
    var x := LookupKey(cfg, r);
    var blocks := Matched(s.tree, x);
    var needed := CeilDiv(|r.Seq()|, cfg.bs) - |blocks|;
    PinnedStays(s.tree, Handles(s.running), x, needed - budget);
    EvictDone(Pinned(s.tree, x), needed - budget);
    FreeNothing(s.pool);
    assert Reserves(cfg, []) == 0;
  }

  lemma RoomOverflows(cfg: Config, s: Sys, budget: int)
    requires ConfigOk(cfg) && TreeOk(s.tree, Handles(s.running)) && s.pc.Prefilling?
    requires s.waiting != [] && Parked(s.waiting[0]) && s.running == [] && budget == |s.pool.free|
    requires Shape(s.tree) && Affordable(cfg, s, s.waiting[0])
    requires var blocks := Matched(s.tree, LookupKey(cfg, s.waiting[0])); blocks != [] && |blocks| * cfg.bs >= cfg.maxLen
    ensures var r, u := s.waiting[0], AdmitOne(cfg, s, budget); var x := LookupKey(cfg, r);
      u == Overflow(s.(tree := Pinned(s.tree, x), pool := Ref(s.pool, Matched(s.tree, x)).1, lost := s.lost + Matched(s.tree, x),
                       running := [r.(pin := Some(Find(s.tree, x).0))], waiting := s.waiting[1..]))
  {
    hide TreeOk, Shape, LruOk, Evict, Free, Ref, Find, Matched, Pinned, Chunks, CeilDiv, Touch;
    var r := s.waiting[0];
    var x := LookupKey(cfg, r);
    var needed := CeilDiv(|r.Seq()|, cfg.bs) - |Matched(s.tree, x)|;
    PinnedStays(s.tree, Handles(s.running), x, needed - budget);
    EvictDone(Pinned(s.tree, x), needed - budget);
    FreeNothing(s.pool);
    assert Reserves(cfg, []) == 0;
    assert s.running + [r.(pin := Some(Find(s.tree, x).0))] == [r.(pin := Some(Find(s.tree, x).0))];
  }

  lemma FreeNothing(p: Pool)
    ensures Free(p, []) == (true, p) && Ref(p, []) == (true, p)
  {}

  /** A tick with one request waiting and nothing else going on. */
  lemma SoloTick(cfg: Config, s: Sys)
    requires ConfigOk(cfg) && Inv(cfg, s) && s.pc.Idle? && !s.fault && s.aborted == {}
    requires |s.waiting| == 1 && s.running == [] && Shape(s.tree) && s.waiting[0].Seq() != [] && Room(cfg, s, s.waiting[0])
    ensures Tick(cfg, s, []) == Joined(cfg, s, s.waiting[0])
  {
    hide Inv, Budgeted, Room, Funded, AdmitOne, Parked, TreeOk, Shape, Pinned, Matched, Find, Ref, LookupKey, Installed;
    var cleared := ReleaseAll(cfg, s, []).(aborted := {});
    assert cleared == s;
    StartKeeps(cfg, s);
    var begun := s.(pc := Prefilling(0));
    BudgetedCore(cfg, begun, |s.pool.free|);
    RoomSame(cfg, s, begun);
    RoomAdmits(cfg, begun, |s.pool.free|);
    AttemptKeeps(cfg, begun, |s.pool.free|);
    var a := AdmitOne(cfg, begun, |s.pool.free|);
    assert AdmitLoop(cfg, begun, |s.pool.free|) == AdmitLoop(cfg, a.sys, a.budget);
    assert AdmitLoop(cfg, a.sys, a.budget) == Admission(a.sys, false);
  }

  lemma RoomSame(cfg: Config, s: Sys, u: Sys)
    requires ConfigOk(cfg) && Shape(s.tree) && |s.waiting| > 0 && s.waiting[0].Seq() != [] && Room(cfg, s, s.waiting[0])
    requires u.tree == s.tree && u.pool == s.pool && u.waiting == s.waiting
    ensures Room(cfg, u, u.waiting[0])
  {}

  /** A tick with requests running and none waiting goes straight to preemption. */
  lemma QuietTick(cfg: Config, s: Sys)
    requires ConfigOk(cfg) && Inv(cfg, s) && s.pc.Idle? && !s.fault && s.aborted == {}
    requires s.waiting == [] && s.running != []
    ensures Tick(cfg, s, []) == PreemptLoop(cfg, s).(pc := Decoding)
  {
    hide Inv, Budgeted, Funded, PreemptLoop;
    var cleared := ReleaseAll(cfg, s, []).(aborted := {});
    assert cleared == s;
    StartKeeps(cfg, s);
    var begun := s.(pc := Prefilling(0));
    assert AdmitLoop(cfg, begun, |s.pool.free|) == Admission(begun, false);
    assert begun.(pc := Idle) == s;
  }

  /** The only running request after its pass, before it may leave. */
  function Stepped(cfg: Config, s: Sys): (u: Sys)
    requires ConfigOk(cfg) && |s.running| == 1
    ensures |u.running| == 1 && u.pc.Idle? && u == s.(pool := u.pool, mem := u.mem, running := u.running, pc := Idle)
  {
    var decode := s.pc.Decoding?;
    var u := WithPrep(cfg, s, 0, decode);
    var r := u.running[0];
    var mem := WriteToks(cfg, u.mem, r.kv.table, From(cfg, r, decode), NewToks(cfg, r, decode));
    u.(mem := mem, running := [SampleReq(cfg, mem, r)], pc := Idle)
  }

  lemma SoloForwarded(cfg: Config, s: Sys)
    requires ConfigOk(cfg) && |s.running| == 1 && BatchStart(s) == 0
    requires PrepOf(cfg, s, 0, s.pc.Decoding?).ok
    ensures PrepareFrom(cfg, s, 0, 1, s.pc.Decoding?).0 && Forwarded(cfg, s) == Stepped(cfg, s)
  {
    hide WriteToks, PrepareMeta, Gather, SampleReq;
    var decode := s.pc.Decoding?;
    var u := WithPrep(cfg, s, 0, decode);
    assert PrepareFrom(cfg, s, 0, 1, decode) == PrepareFrom(cfg, u, 1, 1, decode) == (true, u);
    var r := u.running[0];
    assert u.running[0..] == [r];
    var mem := WriteToks(cfg, u.mem, r.kv.table, From(cfg, r, decode), NewToks(cfg, r, decode));
    assert WriteBatch(cfg, u.mem, [r], decode) == WriteBatch(cfg, mem, [], decode) == mem;
    var v := u.(mem := mem);
    var w := v.(running := v.running[0 := SampleReq(cfg, mem, r)]);
    assert v.running[0 := SampleReq(cfg, mem, r)] == [SampleReq(cfg, mem, r)];
    assert SampleFrom(cfg, v, 0) == SampleFrom(cfg, w, 1) == w;
  }

  /** A pass over one request that goes on running. */
  lemma SoloPass(cfg: Config, s: Sys)
    requires ConfigOk(cfg) && Inv(cfg, s) && Funded(cfg, s) && !s.fault && !s.pc.Idle?
    requires |s.running| == 1 && BatchStart(s) == 0 && PrepOf(cfg, s, 0, s.pc.Decoding?).ok
    requires Stepped(cfg, s).running[0].phase != Finished
    ensures Forward(cfg, s) == Stepped(cfg, s)
  {
    hide Inv, Funded, PrepareMeta, Stepped, PrepareFrom, Forwarded, Finishing, FinishAt;
    SoloForwarded(cfg, s);
    ForwardedFinishing(cfg, s);
    var u := Stepped(cfg, s);
    FinishStep(cfg, u, 0);
    assert FinishFrom(cfg, u, 0) == FinishFrom(cfg, u, 1) == u;
  }

  /** A pass over one request that finishes and is recorded. */
  lemma SoloFinish(cfg: Config, s: Sys)
    requires ConfigOk(cfg) && Inv(cfg, s) && Funded(cfg, s) && !s.fault && !s.pc.Idle?
    requires |s.running| == 1 && BatchStart(s) == 0 && PrepOf(cfg, s, 0, s.pc.Decoding?).ok
    requires Stepped(cfg, s).running[0].phase == Finished && Shape(s.tree)
    requires !Faults(cfg, Stepped(cfg, s), 0)
    ensures Safe(cfg, Stepped(cfg, s)) && Ready(cfg, Stepped(cfg, s).running[0])
    ensures Forward(cfg, s) == FinishAt(cfg, Stepped(cfg, s), 0)
  {
    hide Inv, Funded, PrepareMeta, Stepped, PrepareFrom, Forwarded, Finishing, FinishAt, Faults;
    SoloForwarded(cfg, s);
    ForwardedFinishing(cfg, s);
    var u := Stepped(cfg, s);
    FinishStep(cfg, u, 0);
    FinishingSafe(cfg, u, 0);
    var v := FinishAt(cfg, u, 0);
    assert v.running == [];
    assert FinishFrom(cfg, u, 0) == FinishFrom(cfg, v, 0) == v;
  }
}
