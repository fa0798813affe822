/**
 Progress. Left alone, with no crashes and no new clients, the loop works off its queue: every round of a
 tick and a pass that runs anything brings it closer to the end, so after finitely many rounds every
 request has left, unless a request heads the queue that does not fit even with nothing running.
 */
module ServingDrain {
  import opened Basics
  import opened Tokens
  import opened PoolSpec
  import opened CacheSpec
  import opened RadixSpec
  import opened RadixUpdate
  import opened RadixInsertEvict
  import opened ServingState
  import opened ServingCore
  import opened Serving
  import opened ServingAdmit
  import opened ServingForward
  import opened ServingRun
  import opened ServingTheorems
  import opened ServingSolo
  import opened ServingSound
  import opened ServingBudget
  import opened ServingCards
  import opened ServingKept
  import opened ServingSteps
  import opened ServingPasses
  import opened ServingGate
  import ServingFaultless

  // ---------------------------------------------------------------- the work that is left

  /** One for the request, and one for each token it may still generate. */
  function WorkOf(c: Card): nat {
    1 + if c.maxTokens > |c.gen| then c.maxTokens - |c.gen| else 0
  }

  function Work(cs: seq<Card>): nat {
    if cs == [] then 0 else WorkOf(cs[0]) + Work(cs[1..])
  }

  lemma {:induction false} WorkConcat(a: seq<Card>, b: seq<Card>)
    ensures Work(a + b) == Work(a) + Work(b)
  {
    if a == [] {
      assert a + b == b;
    } else {
      assert (a + b)[1..] == a[1..] + b;
      WorkConcat(a[1..], b);
    }
  }

  /** `g` is `a` with one more token for each card from `i` on. */
  ghost predicate GrownFrom(a: seq<Card>, g: seq<Card>, i: nat) {
    && |g| == |a|
    && forall j {:trigger g[j]} :: 0 <= j < |g| ==> Moves(a[j], g[j], j < i)
  }

  /** A card that is not over stays as it is, or has one more token. */
  predicate Moves(c: Card, d: Card, stays: bool) {
    !Over(c) && if stays then d == c else Grew(c, d)
  }

  lemma GrownTail(a: seq<Card>, g: seq<Card>, i: nat)
    requires GrownFrom(a, g, i) && a != []
    ensures GrownFrom(a[1..], g[1..], if i > 0 then i - 1 else 0)
  {
    hide Moves;
    var j := if i > 0 then i - 1 else 0;
    forall m {:trigger g[1..][m]} | 0 <= m < |g[1..]| ensures Moves(a[1..][m], g[1..][m], m < j) {
      assert g[1..][m] == g[m + 1] && a[1..][m] == a[m + 1];
      assert Moves(a[m + 1], g[m + 1], m + 1 < i);
    }
  }

  lemma GrownHead(a: seq<Card>, g: seq<Card>, i: nat)
    requires GrownFrom(a, g, i) && a != []
    ensures g != [] && !Over(a[0]) && if i > 0 then g[0] == a[0] else Grew(a[0], g[0])
  {
    assert Moves(a[0], g[0], 0 < i);
  }

  lemma SortedWork(g: seq<Card>)
    requires g != []
    ensures Work(Sorted(g, false)) == Work(Sorted(g[1..], false)) + if Over(g[0]) then 0 else WorkOf(g[0])
  {
    hide Over, WorkOf;
    var rest := Sorted(g[1..], false);
    if Over(g[0]) {
      assert [] + rest == rest;
    } else {
      assert ([g[0]] + rest)[1..] == rest;
    }
  }

  /** Each token generated is work done. */
  lemma {:induction false} WorkLess(a: seq<Card>, g: seq<Card>, i: nat)
    requires GrownFrom(a, g, i)
    ensures Work(Sorted(g, false)) + (if i < |a| then |a| - i else 0) <= Work(a)
    decreases |a|
  {
    if a != [] {
      GrownTail(a, g, i);
      GrownHead(a, g, i);
      SortedWork(g);
      OneLess(a[0], g[0], i);
      hide GrownFrom, Over, Grew, Sorted, WorkOf;
      WorkLess(a[1..], g[1..], if i > 0 then i - 1 else 0);
    }
  }

  lemma OneLess(c: Card, d: Card, i: nat)
    requires !Over(c) && if i > 0 then d == c else Grew(c, d)
    ensures i > 0 ==> !Over(d)
    ensures i == 0 && !Over(d) ==> WorkOf(d) + 1 <= WorkOf(c)
  {}

  /** A pass that is not doomed does work. */
  lemma PassedLess(s: Sys, u: Sys, grown: seq<Card>)
    requires NoneOver(s) && PassedOn(s, u, grown) && BatchStart(s) < |s.running|
    ensures Work(Live(u)) < Work(Live(s))
  {
    hide Sorted, LeftAs, Work, Over, Grew;
    var a := Cards(s.running);
    forall j {:trigger grown[j]} | 0 <= j < |grown| ensures Moves(a[j], grown[j], j < BatchStart(s)) {
      assert Live(s)[j] == a[j];
    }
    WorkLess(a, grown, BatchStart(s));
    WorkConcat(a, Cards(s.waiting));
    WorkConcat(Cards(u.running), Cards(u.waiting));
  }

  // ---------------------------------------------------------------- rounds

  function Rounds(m: nat): seq<Action> {
    if m == 0 then [] else [Start([]), Pass] + Rounds(m - 1)
  }

  /** Nothing runs, and the oldest waiting request does not fit: what it needs exceeds what there is to spend. */
  ghost predicate Stuck(cfg: Config, u: Sys)
    requires ConfigOk(cfg)
  {
    && u.pc.Idle? && u.running == [] && u.waiting != [] && u.waiting[0].Seq() != []
    && exists k: nat, b: int :: Tight(cfg, u, k, b) && b >= |u.pool.free| && (u.lost == [] ==> b == |u.pool.free|)
  }

  /** Between rounds: idle, nobody aborted. */
  ghost predicate Resting(s: Sys) {
    s.pc.Idle? && !s.fault && s.aborted == {}
  }

  lemma TightSame(cfg: Config, v: Sys, u: Sys, k: nat, b: int)
    requires ConfigOk(cfg) && v.waiting != [] && v.waiting[0].Seq() != [] && Tight(cfg, v, k, b)
    requires u.waiting == v.waiting && u.running == v.running && u.tree == v.tree
    ensures Tight(cfg, u, k, b)
  {
    hide Longest, OnlyMatch, Sums;
  }

  /** A tick that finds nobody to run and admits nobody leaves a stuck state, or an empty queue. */
  lemma TickStuck(cfg: Config, s: Sys) returns (k: nat, b: int)
    requires ConfigOk(cfg) && Inv(cfg, s) && Resting(s)
    requires var u := Tick(cfg, s, []); u.pc.Idle? && u.lost == s.lost
    ensures var u := Tick(cfg, s, []); Live(u) == [] || Stuck(cfg, u)
  {
    hide Inv, Tick, Removed, Outside, Live, Settled, Moved, MostKept, Requeued, Tight, Spare;
    var u := Tick(cfg, s, []);
    k, b := TickStops(cfg, s, []);
    var v := Settled(cfg, s, []).sys;
    IdleSettled(cfg, s);
    if u.waiting == [] {
      LiveNothing(u);
    } else {
      SpareIdle(cfg, v, u);
      TightSame(cfg, v, u, k, b);
    }
  }

  lemma SpareIdle(cfg: Config, v: Sys, u: Sys)
    requires ConfigOk(cfg) && v.pc == Prefilling(0) && u.pool == v.pool
    ensures Spare(cfg, v) == |u.pool.free|
  {
    SpareAll(cfg, v);
  }

  lemma IdleSettled(cfg: Config, s: Sys)
    requires ConfigOk(cfg) && Inv(cfg, s) && s.pc.Idle? && Tick(cfg, s, []).pc.Idle? && Tick(cfg, s, []).lost == s.lost
    ensures var u, v := Tick(cfg, s, []), Settled(cfg, s, []).sys;
      v == u.(pc := Prefilling(0)) && u.running == []
  {
    hide Inv, Budgeted, AdmitLoop, Removed, Outside, Cards, Live, Set, Safe, PreemptLoop;
    if Settled(cfg, s, []).broken {
      var es := BrokenTick(cfg, s, []);
    }
    var es, b, j := TickParts(cfg, s, []);
  }

  lemma NoneOutside(cs: seq<Card>)
    ensures Outside(cs, Set([])) == cs
  {
    OutsideNone(cs, Set([]));
  }

  /** A round either ends it, gets stuck, or does work. */
  lemma RoundWorks(cfg: Config, n: nat, acts: seq<Action>)
    requires ConfigOk(cfg) && Resting(Run(cfg, n, acts)) && Live(Run(cfg, n, acts)) != []
    ensures var s, u := Run(cfg, n, acts), Run(cfg, n, acts + [Start([]), Pass]);
      u.fault || Stuck(cfg, u) || (Resting(u) && Work(Live(u)) < Work(Live(s)))
  {
    hide Run, Inv, Funded, Tick, NoneOver, Stuck, Live, Work, Step, Resting, MayStart;
    var mid := acts + [Start([])];
    assert mid + [Pass] == acts + [Start([]), Pass];
    LeavesAtOnce(cfg, n, mid);
    RunMore(cfg, n, mid, Pass);
    RestingMay(Run(cfg, n, acts));
    StartStep(cfg, n, acts, []);
    TickGoes(cfg, Run(cfg, n, acts));
    RoundStep(cfg, Run(cfg, n, acts), Run(cfg, n, mid));
  }

  lemma RestingMay(s: Sys)
    requires Resting(s)
    ensures MayStart(s, [])
  {}

  lemma TickGoes(cfg: Config, s: Sys)
    requires ConfigOk(cfg) && Inv(cfg, s) && Resting(s)
    ensures !Tick(cfg, s, []).fault
  {
    hide Inv, Tick;
    ServingFaultless.TickFault(cfg, s, []);
  }

  lemma RoundStep(cfg: Config, s: Sys, v: Sys)
    requires ConfigOk(cfg) && Inv(cfg, s) && Resting(s) && Live(s) != []
    requires v == Tick(cfg, s, []) && Inv(cfg, v) && Funded(cfg, v) && NoneOver(v) && !v.fault
    ensures var u := Step(cfg, v, Pass); u.fault || Stuck(cfg, u) || (Resting(u) && Work(Live(u)) < Work(Live(s)))
  {
    hide Inv, Funded, Tick, Forward, BatchGoes, PassedOn, AllDropped, NoneOver, Stuck, Live, Work, Removed, Outside, Ids, Set, EndsWell;
    var es := TickClears(cfg, s, []);
    NoneOutside(Live(s));
    TickEnds(cfg, s, []);
    EmptyWork(s);
    if v.pc.Idle? {
      if v.lost == s.lost { var k, b := TickStuck(cfg, s); }
    } else {
      var grown := ForwardLists(cfg, v);
      var u := Forward(cfg, v);
      if !u.fault {
        if BatchGoes(cfg, v) {
          PassedIdle(v, u, grown);
          BatchThere(cfg, s, v);
          PassedLess(v, u, grown);
        } else {
          DroppedIdle(v, u);
        }
      }
    }
  }

  lemma EmptyWork(s: Sys)
    requires Live(s) != []
    ensures Work([]) < Work(Live(s))
  {}

  lemma PassedIdle(s: Sys, u: Sys, grown: seq<Card>)
    requires PassedOn(s, u, grown)
    ensures u.pc.Idle? && u.aborted == s.aborted
  {}

  lemma DroppedIdle(s: Sys, u: Sys)
    requires AllDropped(s, u)
    ensures u.pc.Idle? && u.aborted == s.aborted && Live(u) == []
  {
    LiveNothing(u);
  }

  /** The batch of a pass that goes through is not empty. */
  lemma BatchThere(cfg: Config, s: Sys, v: Sys)
    requires ConfigOk(cfg) && BatchGoes(cfg, v) && !v.pc.Idle?
    requires v.lost == s.lost ==> EndsWell(v, Outside(Cards(s.running), Set([])), Outside(Cards(s.waiting), Set([])))
    requires v.lost != s.lost ==> v.pc.Idle?
    ensures BatchStart(v) < |v.running|
  {
    hide Outside, Cards, PrepareFrom;
  }

  /**
   The loop drains: from any reachable resting state, within as many rounds as there is work, every request
   has left, or the queue is stuck, or the run has stopped at a part-block leaf.
   */
  lemma {:induction false} Drains(cfg: Config, n: nat, acts: seq<Action>) returns (m: nat)
    requires ConfigOk(cfg) && Resting(Run(cfg, n, acts))
    ensures m <= Work(Live(Run(cfg, n, acts)))
    ensures var u := Run(cfg, n, acts + Rounds(m)); u.fault || Stuck(cfg, u) || Live(u) == []
    decreases Work(Live(Run(cfg, n, acts)))
  {
    hide Run, Inv, Funded, Live, Work, Stuck;
    m := 0;
    assert acts + Rounds(0) == acts;
    if Live(Run(cfg, n, acts)) != [] {
      var next := acts + [Start([]), Pass];
      RoundWorks(cfg, n, acts);
      EmptyWork(Run(cfg, n, acts));
      if Run(cfg, n, next).fault || Stuck(cfg, Run(cfg, n, next)) {
        m := 1;
        assert Rounds(1) == [Start([]), Pass] + Rounds(0) == [Start([]), Pass];
      } else {
        m := Drains(cfg, n, next);
        assert acts + ([Start([]), Pass] + Rounds(m)) == next + Rounds(m);
        m := m + 1;
      }
    }
  }

  // ---------------------------------------------------------------- stuck is for good

  /** A match whose path holds every unpinned node leaves nothing to evict. */
  lemma {:induction false} NothingSpendable(t: Tree, x: seq<Chunk>, k: nat, n: int, m: int)
    requires Shape(t) && n in t.nodes && k <= |x| && OnlyMatch(t, x, k) && (k > 0 ==> Covers(t, n, x[..k]))
    requires forall i :: i in t.nodes ==> t.nodes[i].lock >= 0
    ensures Loose(if k > 0 then Pin(t, n) else t, m) == 0
    decreases if m > 0 then m else 0
  {
    if m > 0 {
      NothingSpendable(t, x, k, n, m - 1);
      var i := m - 1;
      if i in t.nodes && i != ROOT && t.nodes[i].lock <= 0 {
        var c :| c in t.nodes && Covers(t, c, x[..k]) && Anc(t, i, c);
        CoverUnique(t, n, c, x[..k]);
      }
    }
  }

  lemma NoLess(t: Tree, hs: seq<int>)
    requires TreeOk(t, hs)
    ensures forall i :: i in t.nodes ==> t.nodes[i].lock >= 0
  {}

  /** With nothing running, the attempt on a tight head is refused. */
  lemma TightRefused(cfg: Config, s: Sys, k: nat, b: int)
    requires ConfigOk(cfg) && Budgeted(cfg, s, |s.pool.free|) && s.waiting != [] && s.running == []
    requires TreeOk(s.tree, Handles(s.running)) && s.waiting[0].Seq() != [] && s.pc.Prefilling?
    requires Tight(cfg, s, k, b) && b >= |s.pool.free|
    ensures AdmitOne(cfg, s, |s.pool.free|).Refused?
  {
    hide Budgeted, TreeOk, AdmitOne, Longest, Find, CeilDiv, Chunks, Matched, Shape, OnlyMatch, Loose, Pin;
    var r := s.waiting[0];
    var x := Prefix(cfg, r);
    NoSums(cfg);
    RefusedIff(cfg, s, |s.pool.free|, k, [0]);
    LongestIs(cfg, s.tree, r, k);
    LongestFits(cfg, s.tree, r, k);
    if b < Needed(cfg, r, k) && OnlyMatch(s.tree, x, k) {
      if k > 0 { FoundCovers(s.tree, x); }
      NoLess(s.tree, Handles(s.running));
      NothingSpendable(s.tree, x, k, Find(s.tree, x).0, s.tree.next);
    }
  }

  lemma LongestFits(cfg: Config, t: Tree, r: Req, k: nat)
    requires ConfigOk(cfg) && r.Seq() != [] && Longest(cfg, t, r, k)
    ensures k <= |Prefix(cfg, r)|
  {}

  lemma NoSums(cfg: Config)
    ensures Sums(cfg, [], [0])
  {}

  lemma StuckTick(cfg: Config, s: Sys)
    requires ConfigOk(cfg) && Inv(cfg, s) && Resting(s) && Stuck(cfg, s)
    ensures var u := Tick(cfg, s, []);
      u.pc.Idle? && u.running == [] && u.waiting == s.waiting && u.done == s.done && u.lost == s.lost && u.aborted == {} && Stuck(cfg, u)
  {
    hide Inv, Budgeted, AdmitOne, Tight, TreeOk, Safe, Parked;
    var k: nat, b: int :| Tight(cfg, s, k, b) && b >= |s.pool.free| && (s.lost == [] ==> b == |s.pool.free|);
    var cleared := ReleaseAll(cfg, s, []).(aborted := {});
    assert cleared == s;
    StartKeeps(cfg, s);
    var begun := s.(pc := Prefilling(0));
    BudgetedCore(cfg, begun, |s.pool.free|);
    TightSame(cfg, s, begun, k, b);
    TightRefused(cfg, begun, k, b);
    AttemptKeeps(cfg, begun, |s.pool.free|);
    AttemptLists(cfg, begun, |s.pool.free|);
    AttemptShape(cfg, begun, |s.pool.free|);
    var a := AdmitOne(cfg, begun, |s.pool.free|);
    assert AdmitLoop(cfg, begun, |s.pool.free|) == Admission(a.sys, false);
    PcKeeps(cfg, a.sys, Idle);
    hide Tick, Stuck;
    WaitsOn(Tick(cfg, s, []));
    var k', b' := TickStuck(cfg, s);
  }

  lemma WaitsOn(u: Sys)
    ensures u.waiting != [] ==> Live(u) != []
  {}

  /** Once stuck, further rounds change neither the queue nor who has left. */
  lemma StuckStays(cfg: Config, n: nat, acts: seq<Action>)
    requires ConfigOk(cfg) && Resting(Run(cfg, n, acts)) && Stuck(cfg, Run(cfg, n, acts))
    ensures var s, u := Run(cfg, n, acts), Run(cfg, n, acts + [Start([]), Pass]);
      u.running == [] && u.waiting == s.waiting && u.done == s.done && Resting(u) && Stuck(cfg, u)
  {
    hide Run, Inv, Funded, Tick, Stuck;
    var mid := acts + [Start([])];
    assert mid + [Pass] == acts + [Start([]), Pass];
    RunMore(cfg, n, mid, Pass);
    StartStep(cfg, n, acts, []);
    TickGoes(cfg, Run(cfg, n, acts));
    StuckTick(cfg, Run(cfg, n, acts));
  }
}
