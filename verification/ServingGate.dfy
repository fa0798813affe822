/**
 Admission, exactly: when the oldest waiting request is refused, what one that is admitted adopts from the
 tree, how much is evicted for it, and why a tick admits nobody else.
 */
module ServingGate {
  import opened Basics
  import opened Tokens
  import opened PoolSpec
  import opened CacheSpec
  import opened RadixSpec
  import opened RadixUpdate
  import opened RadixInsertEvict
  import opened ServingState
  import opened ServingCore
  import opened Serving
  import opened ServingAdmit
  import opened ServingForward
  import opened ServingRun
  import opened ServingTheorems
  import opened ServingSolo
  import opened ServingSound
  import opened ServingBudget
  import opened ServingCards
  import opened ServingKept
  import opened ServingSteps
  import opened ServingRecord

  // ---------------------------------------------------------------- the reserve

  /** What is set aside for a request that may still generate tokens. */
  function Reserve(cfg: Config, r: Req): int {
    cfg.reserve(if r.maxTokens > |r.gen| then r.maxTokens - |r.gen| else 0)
  }

  /** `sums[i]` is the reserve of the first `i` requests. */
  ghost predicate Sums(cfg: Config, rs: seq<Req>, sums: seq<int>) {
    && |sums| == |rs| + 1 && sums[0] == 0
    && forall i {:trigger rs[i]} {:trigger sums[i]} :: 0 <= i < |rs| ==> sums[i + 1] == sums[i] + Reserve(cfg, rs[i])
  }

  lemma {:induction false} ReservesFrom(cfg: Config, rs: seq<Req>, sums: seq<int>, i: nat)
    requires Sums(cfg, rs, sums) && i <= |rs|
    ensures sums[i] + Reserves(cfg, rs[i..]) == sums[|rs|]
    decreases |rs| - i
  {
    if i < |rs| {
      ReservesFrom(cfg, rs, sums, i + 1);
      assert rs[i..][1..] == rs[i + 1..] && rs[i..][0] == rs[i];
    }
  }

  /** The reserve of the running requests is the sum over each of them. */
  lemma ReservesSum(cfg: Config, rs: seq<Req>, sums: seq<int>)
    requires Sums(cfg, rs, sums)
    ensures Reserves(cfg, rs) == sums[|rs|]
  {
    ReservesFrom(cfg, rs, sums, 0);
    assert rs[0..] == rs;
  }

  // ---------------------------------------------------------------- the match

  /** The whole blocks of all tokens but the last. */
  function Prefix(cfg: Config, r: Req): seq<Chunk>
    requires ConfigOk(cfg) && r.Seq() != []
  {
    Chunks(r.Seq()[..|r.Seq()| - 1], cfg.bs)
  }

  /** `k` whole blocks of `r` are recorded, not counting its last token, and no more. */
  ghost predicate Longest(cfg: Config, t: Tree, r: Req, k: nat)
    requires ConfigOk(cfg) && r.Seq() != []
  {
    var x := Prefix(cfg, r);
    && k <= |x| && (k > 0 ==> Recorded(t, x[..k]))
    && forall j {:trigger x[..j]} :: k < j <= |x| ==> !Recorded(t, x[..j])
  }

  lemma LongestIs(cfg: Config, t: Tree, r: Req, k: nat)
    requires ConfigOk(cfg) && Shape(t) && r.Seq() != [] && Longest(cfg, t, r, k)
    ensures |Matched(t, LookupKey(cfg, r))| == k
  {
    var x := Prefix(cfg, r);
    MatchLongest(t, x);
    var m := |Matched(t, x)|;
    hide Matched, Chunks, Recorded, Shape;
    if m < k { KnownIs(t, x, x[..k]); }
    if k < m { KnownIs(t, x, x[..m]); }
  }

  lemma MatchedLongest(cfg: Config, t: Tree, r: Req)
    requires ConfigOk(cfg) && Shape(t) && r.Seq() != []
    ensures Longest(cfg, t, r, |Matched(t, LookupKey(cfg, r))|)
  {
    var x := Prefix(cfg, r);
    MatchLongest(t, x);
    var m := |Matched(t, x)|;
    hide Matched, Chunks, Recorded, Shape;
    if m > 0 { KnownIs(t, x, x[..m]); }
    forall j {:trigger x[..j]} | m < j <= |x| ensures !Recorded(t, x[..j]) { KnownIs(t, x, x[..j]); }
  }

  /** Blocks that a request has to be given when `k` of them are adopted. */
  function Needed(cfg: Config, r: Req, k: nat): int
    requires ConfigOk(cfg)
  {
    CeilDiv(|r.Seq()|, cfg.bs) - k
  }

  /** All blocks that eviction could take without touching the match, which ends in node `n`. */
  function Spendable(t: Tree, k: nat, n: int): nat
    requires n in t.nodes
  {
    Loose(if k > 0 then Pin(t, n) else t, t.next)
  }

  // ---------------------------------------------------------------- one attempt

  lemma PinnedEvict(t: Tree, hs: seq<int>, x: seq<Chunk>, need: int)
    requires TreeOk(t, hs)
    ensures var u := Pinned(t, x); Shape(u) && LruOk(u)
    ensures var (v, freed) := Evict(Pinned(t, x), need); var n := Find(t, x).0;
      && n in t.nodes && |freed| <= Spendable(t, |Matched(t, x)|, n)
      && (|freed| < need ==>
            |freed| == Spendable(t, |Matched(t, x)|, n) && forall m :: m in v.nodes && m != ROOT ==> v.nodes[m].lock > 0)
  {
    PinnedTree(t, hs, x);
    var n := Find(t, x).0;
    hide PinsOk, Evict, Loose, LruOk;
    EvictAmount(Pinned(t, x), need, hs + Extra(Matched(t, x), n));
    EvictComplete(Pinned(t, x), need, hs + Extra(Matched(t, x), n));
    PinnedLoose(t, x, t.next);
  }

  lemma {:induction false} PinnedLoose(t: Tree, x: seq<Chunk>, k: int)
    requires Shape(t)
    ensures var n := Find(t, x).0;
      && n in t.nodes && Pinned(t, x).next == t.next
      && Loose(Pinned(t, x), k) == Loose(if |Matched(t, x)| > 0 then Pin(t, n) else t, k)
    decreases if k > 0 then k else 0
  {
    hide Shape, Find, Matched;
    if k > 0 { PinnedLoose(t, x, k - 1); }
  }

  /**
   The gate: the oldest waiting request is refused if and only if the budget and the blocks of unpinned leaves
   do not cover what it needs on top of every reserve, its own included, or the budget and all blocks that
   could be evicted do not cover what it needs.
   */
  lemma RefusedIff(cfg: Config, s: Sys, budget: int, k: nat, sums: seq<int>)
    requires ConfigOk(cfg) && Budgeted(cfg, s, budget) && s.waiting != []
    requires TreeOk(s.tree, Handles(s.running)) && s.waiting[0].Seq() != []
    requires Longest(cfg, s.tree, s.waiting[0], k) && Sums(cfg, s.running, sums)
    ensures Shape(s.tree)
    ensures var r := s.waiting[0]; var n := Find(s.tree, Prefix(cfg, r)).0;
      n in s.tree.nodes
      && (AdmitOne(cfg, s, budget).Refused? <==>
            || budget + s.tree.evictable < Needed(cfg, r, k) + sums[|s.running|] + Reserve(cfg, r)
            || budget + Spendable(s.tree, k, n) < Needed(cfg, r, k))
  {
    hide Budgeted, Core, TreeOk, LruOk, Evict, Free, Ref, Find, Walk, Matched, Pinned, StopsAt, Chunks, CeilDiv, Unpin, Without, Longest, Sums, Reserves, Spendable, Pin, Adopt;
    TreeParts(s.tree, Handles(s.running));
    var r := s.waiting[0];
    var x := LookupKey(cfg, r);
    LongestIs(cfg, s.tree, r, k);
    ReservesSum(cfg, s.running, sums);
    hide Shape;
    PinnedEvict(s.tree, Handles(s.running), x, Needed(cfg, r, k) - budget);
  }

  /**
   What an admitted request starts with: the longest recorded prefix of its tokens but the last, block by
   block what the tree records for it, and its cursor at the end of that.
   */
  lemma AdmitAdopts(cfg: Config, s: Sys, budget: int)
    requires ConfigOk(cfg) && Budgeted(cfg, s, budget) && s.waiting != []
    requires TreeOk(s.tree, Handles(s.running)) && s.waiting[0].Seq() != [] && AdmitOne(cfg, s, budget).Admitted?
    ensures var u := AdmitOne(cfg, s, budget).sys; var x := Prefix(cfg, s.waiting[0]);
      && |u.running| == |s.running| + 1
      && var i := u.running[|s.running|];
         && CardOf(i) == CardOf(s.waiting[0])
         && Longest(cfg, s.tree, s.waiting[0], i.shared) && |i.kv.table| == i.shared && i.kv.cursor == i.shared * cfg.bs
         && forall j {:trigger i.kv.table[j]} :: 0 <= j < i.shared ==> Entry(s.tree, x[..j + 1], i.kv.table[j])
  {
    hide Budgeted, Core, TreeOk, LruOk, Evict, Free, Ref, Find, Walk, Matched, Pinned, StopsAt, Chunks, CeilDiv, Unpin, Without, Longest, Reserves, Pin, Adopt, Entry;
    BudgetedCore(cfg, s, budget);
    var r := s.waiting[0];
    AttemptLists(cfg, s, budget);
    MatchedLongest(cfg, s.tree, r);
    MatchLongest(s.tree, LookupKey(cfg, r));
    hide Shape;
  }

  /**
   Eviction for an admitted request: none when the budget is enough; otherwise some node went without which
   it would not have been, so what is left of the budget is less than that node.
   */
  lemma AdmitEvicts(cfg: Config, s: Sys, budget: int, k: nat)
    requires ConfigOk(cfg) && Budgeted(cfg, s, budget) && s.waiting != []
    requires TreeOk(s.tree, Handles(s.running)) && s.waiting[0].Seq() != [] && AdmitOne(cfg, s, budget).Admitted?
    requires Longest(cfg, s.tree, s.waiting[0], k)
    ensures var a := AdmitOne(cfg, s, budget); var need := Needed(cfg, s.waiting[0], k);
      && (need <= budget ==> a.budget == budget - need && a.sys.pool.free == s.pool.free && a.sys.tree.nodes.Keys == s.tree.nodes.Keys)
      && (need > budget ==> exists n :: n in s.tree.nodes && n !in a.sys.tree.nodes && 0 <= a.budget < |s.tree.nodes[n].blocks|)
      && (forall y, b :: Entry(a.sys.tree, y, b) ==> Entry(s.tree, y, b))
  {
    hide Budgeted, Core, TreeOk, LruOk, Evict, Free, Ref, Find, Walk, Matched, Pinned, StopsAt, Chunks, CeilDiv, Unpin, Without, Longest, Reserves, Pin, Adopt, Entry, SameMap;
    BudgetedCore(cfg, s, budget);
    var r := s.waiting[0];
    var x := LookupKey(cfg, r);
    LongestIs(cfg, s.tree, r, k);
    hide Shape;
    var a := AdmitOne(cfg, s, budget);
    var need := Needed(cfg, r, k) - budget;
    PinnedEvict(s.tree, Handles(s.running), x, need);
    var (t, freed) := Evict(Pinned(s.tree, x), need);
    assert a.sys.tree == t && a.budget == budget + |freed| - Needed(cfg, r, k);
    EvictedMap(s.tree, x, need);
    RefFree(Free(s.pool, freed).1, Matched(s.tree, x));
    if need <= 0 {
      EvictDone(Pinned(s.tree, x), need);
      FreeNothing(s.pool);
    } else {
      NothingFreed(Pinned(s.tree, x), need);
      var n := EvictStops(Pinned(s.tree, x), need);
      SameBlocks(s.tree, Pinned(s.tree, x), n);
    }
  }

  lemma NothingFreed(t: Tree, need: int)
    requires Shape(t) && LruOk(t)
    ensures need > 0 && |Evict(t, need).1| >= need ==> Evict(t, need).1 != []
  {}

  lemma SameBlocks(t: Tree, u: Tree, n: int)
    requires SameMap(t, u) && n in u.nodes
    ensures n in t.nodes && t.nodes[n].blocks == u.nodes[n].blocks
  {}

  lemma EvictedMap(t: Tree, x: seq<Chunk>, need: int)
    requires Shape(t) && Shape(Pinned(t, x)) && LruOk(Pinned(t, x))
    ensures SameMap(t, Pinned(t, x)) && t.nodes.Keys == Pinned(t, x).nodes.Keys
    ensures forall y, b :: Entry(Evict(Pinned(t, x), need).0, y, b) ==> Entry(t, y, b)
  {
    PinnedMap(t, x);
    hide Shape, LruOk, Evict, Entry, Pinned;
    SameMapHeld(t, Pinned(t, x));
    forall y, b | Entry(Evict(Pinned(t, x), need).0, y, b) ensures Entry(t, y, b) { EvictRemoves(Pinned(t, x), need, y, b); }
  }

  // ---------------------------------------------------------------- why nobody else is admitted

  /** Every node that is not pinned lies on the path of the match of `k` blocks of `x`. */
  ghost predicate OnlyMatch(t: Tree, x: seq<Chunk>, k: nat)
    requires k <= |x|
  {
    forall m :: m in t.nodes && m != ROOT && t.nodes[m].lock <= 0 ==>
      k > 0 && exists n :: n in t.nodes && Covers(t, n, x[..k]) && Anc(t, m, n)
  }

  lemma FoundCovers(t: Tree, x: seq<Chunk>)
    requires Shape(t) && Matched(t, x) != []
    ensures Find(t, x).0 in t.nodes && |Matched(t, x)| <= |x| && Covers(t, Find(t, x).0, x[..|Matched(t, x)|])
  {
    var (n, len) := Find(t, x);
    assert x[..len] == t.nodes[n].path[..len];
  }

  lemma CoversSame(t: Tree, u: Tree, n: int, y: seq<Chunk>)
    requires Shape(t) && Shape(u) && Covers(t, n, y) && n in u.nodes && n != ROOT
    requires u.nodes[n].path == t.nodes[n].path && u.nodes[n].blocks == t.nodes[n].blocks
    ensures Covers(u, n, y)
  {
    Up(t, n);
    Up(u, n);
  }

  lemma NotRoot(t: Tree, n: int, y: seq<Chunk>)
    requires Shape(t) && Covers(t, n, y)
    ensures n != ROOT
  {}

  /** Eviction leaves the match covered. */
  lemma StillCovers(t: Tree, hs: seq<int>, x: seq<Chunk>, need: int)
    requires TreeOk(t, hs) && Matched(t, x) != []
    ensures var u, n := Pinned(t, x), Find(t, x).0;
      && Shape(u) && LruOk(u) && |Matched(t, x)| <= |x|
      && n in Evict(u, need).0.nodes && Covers(Evict(u, need).0, n, x[..|Matched(t, x)|])
  {
    FoundCovers(t, x);
    PinnedStays(t, hs, x, need);
    PinnedMap(t, x);
    var u, n, y := Pinned(t, x), Find(t, x).0, x[..|Matched(t, x)|];
    hide Shape, LruOk, Evict, Find, Matched, Pinned, PinsOk;
    NotRoot(t, n, y);
    SameBlocks(t, u, n);
    EvictPaths(u, need, n);
    EvictShrinksOnly(u, need);
    hide SameMap;
    CoversSame(t, Evict(u, need).0, n, y);
  }

  /** When everything evictable has gone and it was not enough. */
  lemma AllGone(t: Tree, hs: seq<int>, x: seq<Chunk>, need: int)
    requires TreeOk(t, hs)
    ensures var u := Pinned(t, x); Shape(u) && LruOk(u)
    ensures var n, v := Find(t, x).0, Evict(Pinned(t, x), need).0;
      && n in v.nodes && |Matched(t, x)| <= |x|
      && (|Evict(Pinned(t, x), need).1| < need ==> OnlyMatch(UnpinIf(v, Matched(t, x), n), x, |Matched(t, x)|))
  {
    PinnedEvict(t, hs, x, need);
    PinnedStays(t, hs, x, need);
    MatchLongest(t, x);
    if |Evict(Pinned(t, x), need).1| < need {
      if Matched(t, x) != [] { StillCovers(t, hs, x, need); }
      hide Shape, LruOk, Evict, Find, Matched, Pinned, PinsOk;
      UnpinOnly(Evict(Pinned(t, x), need).0, Matched(t, x), Find(t, x).0, x);
    }
  }

  lemma UnpinOnly(v: Tree, blocks: seq<nat>, n: int, x: seq<Chunk>)
    requires n in v.nodes && |blocks| <= |x| && forall m :: m in v.nodes && m != ROOT ==> v.nodes[m].lock > 0
    requires blocks != [] ==> Covers(v, n, x[..|blocks|])
    ensures OnlyMatch(UnpinIf(v, blocks, n), x, |blocks|)
  {
    var u := UnpinIf(v, blocks, n);
    if blocks != [] {
      assert Covers(u, n, x[..|blocks|]);
      forall m | m in u.nodes && m != ROOT && u.nodes[m].lock <= 0 ensures Anc(u, m, n) { assert v.nodes[m].lock > 0; }
    }
  }

  lemma RecordedThere(t: Tree, n: int, y: seq<Chunk>)
    requires Shape(t) && Covers(t, n, y)
    ensures Recorded(t, y)
  {
    PrefixClosed(t, y, y);
  }

  lemma RecordedLess(t: Tree, u: Tree, y: seq<Chunk>)
    requires !Recorded(t, y) && forall b :: Entry(u, y, b) ==> Entry(t, y, b)
    ensures !Recorded(u, y)
  {
    hide Entry;
  }

  /** The same match afterwards. */
  lemma LongestStays(cfg: Config, t: Tree, u: Tree, r: Req, k: nat, n: int)
    requires ConfigOk(cfg) && r.Seq() != [] && Longest(cfg, t, r, k) && Shape(u)
    requires forall y, b :: Entry(u, y, b) ==> Entry(t, y, b)
    requires k > 0 ==> Covers(u, n, Prefix(cfg, r)[..k])
    ensures Longest(cfg, u, r, k)
  {
    hide Entry, Chunks, Shape, Recorded;
    var x := Prefix(cfg, r);
    if k > 0 { RecordedThere(u, n, x[..k]); }
    forall j {:trigger x[..j]} | k < j <= |x| ensures !Recorded(u, x[..j]) { RecordedLess(t, u, x[..j]); }
  }

  /** The oldest waiting request does not fit, `k` blocks matched and `b` blocks to spend. */
  ghost predicate Tight(cfg: Config, u: Sys, k: nat, b: int)
    requires ConfigOk(cfg) && u.waiting != [] && u.waiting[0].Seq() != []
  {
    var r := u.waiting[0];
    && Longest(cfg, u.tree, r, k)
    && ((forall sums :: Sums(cfg, u.running, sums) ==> b + u.tree.evictable < Needed(cfg, r, k) + sums[|u.running|] + Reserve(cfg, r))
        || (b < Needed(cfg, r, k) && OnlyMatch(u.tree, Prefix(cfg, r), k)))
  }

  lemma TouchedTight(cfg: Config, s: Sys, u: Sys, k: nat, b: int, n: int)
    requires ConfigOk(cfg) && s.waiting != [] && s.waiting[0].Seq() != [] && u == s.(tree := Touch(s.tree, n))
    requires Longest(cfg, s.tree, s.waiting[0], k)
    requires b + Touch(s.tree, n).evictable - Reserves(cfg, s.running) - Reserve(cfg, s.waiting[0]) < Needed(cfg, s.waiting[0], k)
    ensures Tight(cfg, u, k, b)
  {
    hide Chunks, CeilDiv, Reserves;
    TouchedMap(s.tree, n);
    LongestSame(cfg, s.tree, u.tree, s.waiting[0], k);
    forall sums | Sums(cfg, u.running, sums) ensures Reserves(cfg, u.running) == sums[|u.running|] { ReservesSum(cfg, u.running, sums); }
  }

  lemma TouchedMap(t: Tree, n: int)
    ensures forall y, b :: Entry(t, y, b) <==> Entry(Touch(t, n), y, b)
  {
    assert SameMap(t, Touch(t, n));
    SameMapHeld(t, Touch(t, n));
  }

  lemma LongestSame(cfg: Config, t: Tree, u: Tree, r: Req, k: nat)
    requires ConfigOk(cfg) && r.Seq() != [] && Longest(cfg, t, r, k) && forall y, b :: Entry(t, y, b) <==> Entry(u, y, b)
    ensures Longest(cfg, u, r, k)
  {
    hide Chunks, Entry;
  }

  /** Why an attempt is refused, said of the state it leaves. */
  lemma RefusedTight(cfg: Config, s: Sys, budget: int) returns (k: nat, b: int)
    requires ConfigOk(cfg) && Budgeted(cfg, s, budget) && s.waiting != []
    requires TreeOk(s.tree, Handles(s.running)) && s.waiting[0].Seq() != [] && AdmitOne(cfg, s, budget).Refused?
    ensures var u := AdmitOne(cfg, s, budget).sys;
      && u.waiting == s.waiting && u.pc == s.pc && u.pc.Prefilling? && u.pc.k <= |u.running| && s.pc.k <= |s.running|
      && Tight(cfg, u, k, b) && b - Spare(cfg, u) == budget - Spare(cfg, s) + Stray(Reported(cfg, s, budget), s.lost)
  {
    hide Budgeted, Core, TreeOk, LruOk, Evict, Free, Ref, Find, Walk, Matched, Pinned, StopsAt, Chunks, CeilDiv, Unpin, Without, Longest, Reserves, Pin, Adopt, Entry, SameMap, Shape, Inv;
    hide OnlyMatch, Tight, Touch, Spare;
    TreeParts(s.tree, Handles(s.running));
    BudgetedCore(cfg, s, budget);
    AttemptLists(cfg, s, budget);
    AttemptBudget(cfg, s, budget);
    var r := s.waiting[0];
    var x := LookupKey(cfg, r);
    MatchedLongest(cfg, s.tree, r);
    k := |Matched(s.tree, x)|;
    b := budget + |Reported(cfg, s, budget)|;
    var need := Needed(cfg, r, k) - budget;
    var n := Find(s.tree, x).0;
    if budget + Touch(s.tree, n).evictable - Reserves(cfg, s.running) - cfg.reserve(Remaining(r)) < Needed(cfg, r, k) {
      TouchedTight(cfg, s, AdmitOne(cfg, s, budget).sys, k, b, n);
    } else {
      EvictedTight(cfg, s, budget, k);
    }
  }

  lemma EvictedTight(cfg: Config, s: Sys, budget: int, k: nat)
    requires ConfigOk(cfg) && Budgeted(cfg, s, budget) && s.waiting != []
    requires TreeOk(s.tree, Handles(s.running)) && s.waiting[0].Seq() != [] && AdmitOne(cfg, s, budget).Refused?
    requires Shape(s.tree) && k == |Matched(s.tree, LookupKey(cfg, s.waiting[0]))|
    requires var x := LookupKey(cfg, s.waiting[0]);
      budget + Touch(s.tree, Find(s.tree, x).0).evictable - Reserves(cfg, s.running) - cfg.reserve(Remaining(s.waiting[0])) >= Needed(cfg, s.waiting[0], k)
    ensures AdmitOne(cfg, s, budget).sys.waiting == s.waiting
    ensures Tight(cfg, AdmitOne(cfg, s, budget).sys, k, budget + |Reported(cfg, s, budget)|)
  {
    hide Budgeted, Core, TreeOk, LruOk, Evict, Free, Ref, Find, Walk, Matched, Pinned, StopsAt, Chunks, CeilDiv, Unpin, Without, Longest, Reserves, Pin, Adopt, Entry, SameMap, Shape;
    hide OnlyMatch, Touch;
    BudgetedCore(cfg, s, budget);
    var r := s.waiting[0];
    var x := LookupKey(cfg, r);
    MatchedLongest(cfg, s.tree, r);
    var need := Needed(cfg, r, k) - budget;
    var n := Find(s.tree, x).0;
    AllGone(s.tree, Handles(s.running), x, need);
    var (v, freed) := Evict(Pinned(s.tree, x), need);
    var u := AdmitOne(cfg, s, budget).sys;
    assert u.tree == UnpinIf(v, Matched(s.tree, x), n);
    EvictedMap(s.tree, x, need);
    UnpinIfMap(v, Matched(s.tree, x), n);
    if k > 0 {
      StillCovers(s.tree, Handles(s.running), x, need);
      UnpinIfCovers(v, Matched(s.tree, x), n, x[..k]);
    }
    RefusedKeeps(cfg, s, budget);
    InvShape(cfg, u);
    LongestStays(cfg, s.tree, u.tree, r, k, n);
  }

  lemma InvShape(cfg: Config, s: Sys)
    requires ConfigOk(cfg) && Inv(cfg, s)
    ensures Shape(s.tree)
  {}

  lemma UnpinIfMap(t: Tree, blocks: seq<nat>, n: int)
    requires n in t.nodes
    ensures forall y, b :: Entry(UnpinIf(t, blocks, n), y, b) ==> Entry(t, y, b)
  {
    assert SameMap(t, UnpinIf(t, blocks, n));
    hide Entry, SameMap;
    SameMapHeld(t, UnpinIf(t, blocks, n));
  }

  lemma UnpinIfCovers(t: Tree, blocks: seq<nat>, n: int, y: seq<Chunk>)
    requires n in t.nodes && Covers(t, n, y)
    ensures Covers(UnpinIf(t, blocks, n), n, y)
  {}

  /** A lookup is a use, even when the request is then refused: the node it found is last in line for eviction. */
  lemma RefusedUses(cfg: Config, s: Sys, budget: int)
    requires ConfigOk(cfg) && Budgeted(cfg, s, budget) && s.waiting != []
    requires TreeOk(s.tree, Handles(s.running)) && s.waiting[0].Seq() != [] && AdmitOne(cfg, s, budget).Refused?
    ensures Shape(s.tree)
    ensures var u, n := AdmitOne(cfg, s, budget).sys.tree, Find(s.tree, Prefix(cfg, s.waiting[0])).0;
      Evictable(u, n) ==> u.lru != [] && u.lru[|u.lru| - 1] == n
  {
    hide Budgeted, Core, TreeOk, Evict, Free, Ref, Find, Walk, Matched, Pinned, StopsAt, Chunks, CeilDiv, Reserves, Pin, Adopt, Entry, SameMap, Shape, Inv, Funded, LruOk, Touch, UnpinIf;
    TreeParts(s.tree, Handles(s.running));
    BudgetedCore(cfg, s, budget);
    RefusedKeeps(cfg, s, budget);
    var x := LookupKey(cfg, s.waiting[0]);
    var n, blocks := Find(s.tree, x).0, Matched(s.tree, x);
    var u := AdmitOne(cfg, s, budget).sys;
    InvLru(cfg, u);
    var need := CeilDiv(|s.waiting[0].Seq()|, cfg.bs) - |blocks| - budget;
    AllGone(s.tree, Handles(s.running), x, need);
    if u.tree == Touch(s.tree, n) {
      TouchedLast(s.tree, n);
    } else {
      var v := Evict(Pinned(s.tree, x), need).0;
      assert u.tree == UnpinIf(v, blocks, n);
      if blocks == [] { RootFound(s.tree, x); }
      AllPinned(s.tree, Handles(s.running), x, need);
      UnpinnedLast(v, blocks, n);
    }
  }

  lemma InvLru(cfg: Config, s: Sys)
    requires ConfigOk(cfg) && Inv(cfg, s)
    ensures LruOk(s.tree)
  {}

  lemma TouchedLast(t: Tree, n: int)
    requires LruOk(t) && LruOk(Touch(t, n))
    ensures var u := Touch(t, n); Evictable(u, n) ==> u.lru != [] && u.lru[|u.lru| - 1] == n
  {
    assert Evictable(Touch(t, n), n) <==> Evictable(t, n);
    assert n in t.lru <==> Evictable(t, n);
  }

  lemma RootFound(t: Tree, x: seq<Chunk>)
    requires Shape(t) && Matched(t, x) == []
    ensures Find(t, x).0 == ROOT
  {}

  lemma AllPinned(t: Tree, hs: seq<int>, x: seq<Chunk>, need: int)
    requires TreeOk(t, hs)
    ensures Shape(Pinned(t, x)) && LruOk(Pinned(t, x)) && LruOk(Evict(Pinned(t, x), need).0)
    ensures Matched(t, x) != [] ==> var v, n := Evict(Pinned(t, x), need).0, Find(t, x).0; n in v.nodes && v.nodes[n].lock > 0
  {
    PinnedStays(t, hs, x, need);
    PinnedTree(t, hs, x);
    EvictKeeps(Pinned(t, x), need, hs + Extra(Matched(t, x), Find(t, x).0));
    if Matched(t, x) != [] {
      var h := hs + [Find(t, x).0];
      PinsPositive(Evict(Pinned(t, x), need).0, h, Find(t, x).0, |hs|);
    }
  }

  lemma UnpinnedLast(v: Tree, blocks: seq<nat>, n: int)
    requires n in v.nodes && LruOk(v) && (blocks == [] ==> n == ROOT) && (blocks != [] ==> v.nodes[n].lock > 0)
    ensures var u := UnpinIf(v, blocks, n); Evictable(u, n) ==> u.lru != [] && u.lru[|u.lru| - 1] == n
  {
    assert n in v.lru <==> Evictable(v, n);
  }

  // ---------------------------------------------------------------- the whole loop

  lemma AttemptSpare(cfg: Config, s: Sys, budget: int)
    requires ConfigOk(cfg) && Budgeted(cfg, s, budget) && s.waiting != []
    requires TreeOk(s.tree, Handles(s.running)) && s.waiting[0].Seq() != [] && AdmitOne(cfg, s, budget).Admitted?
    ensures var a := AdmitOne(cfg, s, budget);
      && s.pc.k <= |s.running| && a.sys.pc.Prefilling? && a.sys.pc.k <= |a.sys.running| && a.sys.lost == s.lost
      && a.budget - Spare(cfg, a.sys) >= budget - Spare(cfg, s)
      && (s.lost == [] ==> a.budget - Spare(cfg, a.sys) == budget - Spare(cfg, s))
  {
    hide Budgeted, TreeOk, AdmitOne, Spare, Reported;
    AttemptBudget(cfg, s, budget);
    AdmittedLost(cfg, s, budget);
    NoStray(Reported(cfg, s, budget));
  }

  lemma AdmittedLost(cfg: Config, s: Sys, budget: int)
    requires ConfigOk(cfg) && Budgeted(cfg, s, budget) && s.waiting != []
    requires TreeOk(s.tree, Handles(s.running)) && s.waiting[0].Seq() != [] && AdmitOne(cfg, s, budget).Admitted?
    ensures AdmitOne(cfg, s, budget).sys.lost == s.lost && s.pc.Prefilling?
  {
    hide Budgeted, TreeOk, AdmitOne;
    BudgetedCore(cfg, s, budget);
    AttemptShape(cfg, s, budget);
  }

  /**
   The loop goes on until the queue is empty or its head does not fit. `b` is what could be spent: the
   unpromised free blocks, and more only once references have been lost.
   */
  lemma {:induction false} LoopStops(cfg: Config, s: Sys, budget: int) returns (k: nat, b: int)
    requires ConfigOk(cfg) && Budgeted(cfg, s, budget) && !AdmitLoop(cfg, s, budget).broken
    ensures var u := AdmitLoop(cfg, s, budget).sys;
      && s.pc.k <= |s.running| && u.pc.Prefilling? && u.pc.k <= |u.running|
      && (u.waiting != [] ==>
            && u.waiting[0].Seq() != [] && Tight(cfg, u, k, b)
            && b - Spare(cfg, u) >= budget - Spare(cfg, s)
            && (s.lost == [] ==> b - Spare(cfg, u) == budget - Spare(cfg, s)))
    decreases |s.waiting|
  {
    hide Budgeted, Inv, TreeOk, Core, Shape, AdmitOne, Parked, Handles, Safe, Reported, Spare, Tight;
    BudgetedCore(cfg, s, budget);
    BudgetedCount(cfg, s, budget);
    k, b := 0, 0;
    if s.waiting != [] {
      AttemptShape(cfg, s, budget);
      AttemptKeeps(cfg, s, budget);
      var a := AdmitOne(cfg, s, budget);
      if a.Admitted? {
        AttemptSpare(cfg, s, budget);
        k, b := LoopStops(cfg, a.sys, a.budget);
      } else {
        k, b := RefusedTight(cfg, s, budget);
        NoStray(Reported(cfg, s, budget));
      }
    }
  }

  /** Admission ended in `v` with an empty queue, or one whose oldest request does not fit into what there is to spend. */
  ghost predicate Stopped(cfg: Config, v: Sys, k: nat, b: int)
    requires ConfigOk(cfg)
  {
    && v.pc.Prefilling? && v.pc.k <= |v.running|
    && (v.waiting != [] ==>
          && v.waiting[0].Seq() != [] && Tight(cfg, v, k, b) && b >= Spare(cfg, v) && (v.lost == [] ==> b == Spare(cfg, v)))
  }

  /**
   A tick admits all it can: unless admission breaks off, once it is done the queue is empty or its oldest
   request does not fit, against the free blocks not promised to those just admitted.
   */
  lemma StartStops(cfg: Config, n: nat, acts: seq<Action>, order: seq<nat>) returns (k: nat, b: int)
    requires ConfigOk(cfg) && MayStart(Run(cfg, n, acts), order) && Run(cfg, n, acts + [Start(order)]).lost == Run(cfg, n, acts).lost
    ensures var u, v := Run(cfg, n, acts + [Start(order)]), Settled(cfg, Run(cfg, n, acts), order).sys;
      Stopped(cfg, v, k, b) && (u.pc.Prefilling? ==> u == v)
  {
    hide Run, Inv, Funded, Tick, Outside, Cards, Set, Settled, MostKept, Removed, Live, Stopped;
    StartStep(cfg, n, acts, order);
    k, b := TickStops(cfg, Run(cfg, n, acts), order);
  }

  lemma TickStops(cfg: Config, s: Sys, order: seq<nat>) returns (k: nat, b: int)
    requires ConfigOk(cfg) && Inv(cfg, s) && s.pc.Idle? && Tick(cfg, s, order).lost == s.lost
    ensures var u, v := Tick(cfg, s, order), Settled(cfg, s, order).sys;
      Stopped(cfg, v, k, b) && (u.pc.Prefilling? ==> u == v) && v.lost == s.lost
  {
    hide Inv, Budgeted, Tick, AdmitLoop, Removed, Outside, Cards, Live, Set, Moved, MostKept, Spare, Tight;
    if Settled(cfg, s, order).broken {
      var es := BrokenTick(cfg, s, order);
    }
    var es, b', j := SoundTick(cfg, s, order);
    var begun := Begun(cfg, s, order);
    BegunSettled(cfg, s, order);
    k, b := LoopStops(cfg, begun, |begun.pool.free|);
    SpareAll(cfg, begun);
    SettledLost(cfg, s, order);
  }

  lemma SettledLost(cfg: Config, s: Sys, order: seq<nat>)
    requires ConfigOk(cfg) && Inv(cfg, s) && s.pc.Idle? && !Settled(cfg, s, order).broken
    ensures Settled(cfg, s, order).sys.lost == s.lost
  {
    hide Inv, Removed, Outside, Cards, Live, Set, Settled, Moved;
    var es, b, j := TickParts(cfg, s, order);
  }

  lemma BegunSettled(cfg: Config, s: Sys, order: seq<nat>)
    requires ConfigOk(cfg) && Inv(cfg, s) && s.pc.Idle?
    ensures var b := Begun(cfg, s, order);
      Settled(cfg, s, order) == AdmitLoop(cfg, b, |b.pool.free|) && b.pc == Prefilling(0) && b.lost == s.lost
  {
    hide Inv, Budgeted, AdmitLoop, Removed, Outside, Cards, Live, Set;
    var es := ClearLists(cfg, s, order);
  }

  lemma SpareAll(cfg: Config, s: Sys)
    requires ConfigOk(cfg) && s.pc == Prefilling(0)
    ensures Spare(cfg, s) == |s.pool.free|
  {
    assert s.running[|s.running|..] == [];
  }
}
