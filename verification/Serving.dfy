/**
 The serving loop as a state machine. Between the points where the loop waits for the model,
 clients may submit and abort; a tick first clears aborted requests and admits waiting ones,
 or preempts until every running request can take one more token; the forward pass then
 writes the cache and appends one token per request; finished requests are recorded and leave.
 */
module Serving {
  import opened Basics
  import opened Tokens
  import opened PoolSpec
  import opened CacheSpec
  import opened RadixSpec
  import opened RadixUpdate
  import opened RadixInsertEvict
  import opened ServingState
  import opened ServingCore

  /** What the loop is waiting for: nothing, a prefill of the last `k` running requests, a decode of all. */
  datatype Pc = Idle | Prefilling(k: nat) | Decoding

  /** A request that left; `normal` when it was not aborted or failed. */
  datatype Ended = Ended(req: Req, normal: bool)

  /**
   `lost` lists references that were taken and that nobody will ever give back. `fault` marks that
   the code's next action would leave a part-block leaf in the tree; the model stops there.
   */
  datatype Sys = Sys(
    waiting: seq<Req>, running: seq<Req>, done: seq<Ended>, aborted: set<nat>,
    pool: Pool, mem: seq<seq<Cell>>, tree: Tree, lost: seq<nat>, nextId: nat, pc: Pc, fault: bool)

  // ---------------------------------------------------------------- where a request stands

  /** Not on the device: nothing held. */
  predicate Parked(r: Req) {
    r.kv == FRESH && r.pin.None? && r.shared == 0 && r.prompt != [] && r.phase == Waiting
  }

  /** Admitted, prefix adopted, its prefill not yet run. */
  predicate Pending(cfg: Config, r: Req) {
    && r.prompt != [] && r.phase == Waiting
    && |r.kv.table| == r.shared && r.kv.cursor == r.shared * cfg.bs < |r.Seq()|
    && (r.kv.adopted <==> r.shared > 0) && (r.kv.live <==> r.shared > 0)
  }

  /** All tokens but the last are in the cache. */
  predicate Ready(cfg: Config, r: Req)
    requires ConfigOk(cfg)
  {
    && r.prompt != [] && r.gen != [] && r.phase != Waiting
    && KvOk(r.kv, cfg.bs) && r.kv.live
    && r.kv.cursor + 1 == |r.Seq()| && r.shared * cfg.bs < r.kv.cursor
  }

  /** Blocks a pending request still has to be given. */
  function NeedOf(cfg: Config, r: Req): int
    requires ConfigOk(cfg)
  {
    CeilDiv(|r.Seq()|, cfg.bs) - r.shared
  }

  function Need(cfg: Config, rs: seq<Req>): int
    requires ConfigOk(cfg)
  {
    if rs == [] then 0 else NeedOf(cfg, rs[0]) + Need(cfg, rs[1..])
  }

  lemma {:induction false} NeedConcat(cfg: Config, a: seq<Req>, c: seq<Req>)
    requires ConfigOk(cfg)
    ensures Need(cfg, a + c) == Need(cfg, a) + Need(cfg, c)
  {
    if a == [] {
      assert a + c == c;
    } else {
      assert (a + c)[1..] == a[1..] + c;
      NeedConcat(cfg, a[1..], c);
    }
  }

  function PendingCount(s: Sys): nat {
    if s.pc.Prefilling? then s.pc.k else 0
  }

  /** Index of the first request that the next forward pass works on. */
  function BatchStart(s: Sys): int {
    if s.pc.Prefilling? then |s.running| - s.pc.k else 0
  }

  ghost predicate Phases(cfg: Config, s: Sys)
    requires ConfigOk(cfg)
  {
    && PendingCount(s) <= |s.running|
    && (forall i {:trigger s.running[i]} :: 0 <= i < |s.running| - PendingCount(s) ==> Ready(cfg, s.running[i]) && s.running[i].phase == Running)
    && (forall i {:trigger s.running[i]} :: |s.running| - PendingCount(s) <= i < |s.running| ==> Pending(cfg, s.running[i]))
  }

  /** Requests are in arrival order, running ones before waiting ones, each once. */
  ghost predicate InOrder(rs: seq<Req>, next: nat) {
    && (forall i :: 0 <= i < |rs| ==> rs[i].id < next)
    && (forall i, j :: 0 <= i < j < |rs| ==> rs[i].id < rs[j].id)
  }

  /** The batch the loop is waiting for has all the blocks it can need, unless references were lost. */
  ghost predicate Funded(cfg: Config, s: Sys)
    requires ConfigOk(cfg)
  {
    match s.pc
    case Idle => true
    case Prefilling(k) => k <= |s.running| && (s.lost == [] ==> Need(cfg, s.running[|s.running| - k..]) <= |s.pool.free|)
    case Decoding => |s.running| <= |s.pool.free|
  }

  ghost predicate Sized(cfg: Config, s: Sys) {
    |s.mem| == |s.pool.ref| && forall b :: 0 <= b < |s.mem| ==> |s.mem[b]| == cfg.bs
  }

  /** Without prefix sharing nothing is recorded, pinned or lost. */
  ghost predicate Unshared(cfg: Config, s: Sys) {
    !cfg.useRadix ==>
      && s.tree == EMPTY && s.lost == []
      && forall i {:trigger s.running[i]} :: 0 <= i < |s.running| ==> s.running[i].pin.None?
  }

  /** What holds even in the middle of a forward pass. */
  ghost predicate Safe(cfg: Config, s: Sys)
    requires ConfigOk(cfg)
  {
    && Core(cfg, s.pool, s.tree, s.running, [], -1, s.lost)
    && (forall i {:trigger s.waiting[i]} :: 0 <= i < |s.waiting| ==> Parked(s.waiting[i]))
    && InOrder(s.running + s.waiting, s.nextId)
    && Sized(cfg, s)
    && Unshared(cfg, s)
  }

  /** What holds between any two steps. */
  ghost predicate Inv(cfg: Config, s: Sys)
    requires ConfigOk(cfg)
  {
    Safe(cfg, s) && Phases(cfg, s)
  }

  // ---------------------------------------------------------------- _release

  function Index(rs: seq<Req>, id: nat): (i: int)
    ensures -1 <= i < |rs|
    ensures i >= 0 ==> rs[i].id == id
    ensures i < 0 ==> forall j :: 0 <= j < |rs| ==> rs[j].id != id
  {
    if rs == [] then -1
    else if rs[0].id == id then 0
    else
      var i := Index(rs[1..], id);
      assert i < 0 ==> forall j :: 0 < j < |rs| ==> rs[j] == rs[1..][j - 1];
      if i < 0 then -1 else i + 1
  }

  function Cleared(r: Req, phase: Phase): Req {
    r.(kv := FRESH, pin := None, shared := 0, phase := phase)
  }

  /** `_free_kv` of running request `i`, which then leaves the running list. */
  function DropRunning(s: Sys, i: nat): Sys
    requires i < |s.running| && (s.running[i].pin.Some? ==> s.running[i].pin.value in s.tree.nodes)
  {
    s.(tree := UnpinOf(s.tree, s.running[i]),
       pool := Free(s.pool, s.running[i].kv.table).1,
       running := s.running[..i] + s.running[i + 1..])
  }

  function ReleaseRunning(s: Sys, i: nat): Sys
    requires i < |s.running| && (s.running[i].pin.Some? ==> s.running[i].pin.value in s.tree.nodes)
  {
    DropRunning(s, i).(done := s.done + [Ended(Cleared(s.running[i], Finished), false)])
  }

  function ReleaseWaiting(s: Sys, i: nat): Sys
    requires i < |s.waiting|
  {
    s.(waiting := s.waiting[..i] + s.waiting[i + 1..],
       done := s.done + [Ended(s.waiting[i].(phase := Finished), false)])
  }

  lemma CoreSkip(cfg: Config, p: Pool, t: Tree, rs: seq<Req>, i: int, lost: seq<nat>)
    requires ConfigOk(cfg) && Core(cfg, p, t, rs, [], -1, lost)
    ensures Core(cfg, p, t, rs, [], i, lost)
  {}

  lemma PinKnown(cfg: Config, s: Sys, i: nat)
    requires ConfigOk(cfg) && i < |s.running| && Core(cfg, s.pool, s.tree, s.running, [], -1, s.lost)
    ensures s.running[i].pin.Some? ==> s.running[i].pin.value in s.tree.nodes
  {}

  lemma EmptyHoldsNothing()
    ensures forall x, b :: !Entry(EMPTY, x, b)
  {}

  lemma OrderWithout(rs: seq<Req>, i: nat, next: nat)
    requires InOrder(rs, next) && i < |rs|
    ensures InOrder(rs[..i] + rs[i + 1..], next)
  {}

  lemma DropCore(cfg: Config, s: Sys, i: nat)
    requires ConfigOk(cfg) && i < |s.running| && Core(cfg, s.pool, s.tree, s.running, [], i, s.lost)
    requires Unshared(cfg, s)
    ensures s.running[i].pin.Some? ==> s.running[i].pin.value in s.tree.nodes
    ensures var u := DropRunning(s, i);
      && Core(cfg, u.pool, u.tree, u.running, [], -1, u.lost)
      && |s.pool.free| <= |u.pool.free| && |s.pool.ref| == |u.pool.ref| && Unshared(cfg, u)
  {
    CoreRelease(cfg, s.pool, s.tree, s.running, i, s.lost);
    FreeSize(s.pool, s.running[i].kv.table);
    hide Core, Free, UnpinOf, Unshared;
    DropUnshared(cfg, s, i);
  }

  lemma FreeSize(p: Pool, ids: seq<nat>)
    ensures |Free(p, ids).1.ref| == |p.ref|
  {}

  lemma DropUnshared(cfg: Config, s: Sys, i: nat)
    requires i < |s.running| && Unshared(cfg, s) && (s.running[i].pin.Some? ==> s.running[i].pin.value in s.tree.nodes)
    ensures Unshared(cfg, DropRunning(s, i))
  {
    hide Free;
  }

  /** Releasing running request `i` keeps everything safe. */
  lemma DropSafe(cfg: Config, s: Sys, i: nat)
    requires ConfigOk(cfg) && Safe(cfg, s) && i < |s.running|
    ensures s.running[i].pin.Some? ==> s.running[i].pin.value in s.tree.nodes
    ensures Safe(cfg, DropRunning(s, i)) && |s.pool.free| <= |DropRunning(s, i).pool.free|
  {
    hide Core, DropRunning;
    PinKnown(cfg, s, i);
    CoreSkip(cfg, s.pool, s.tree, s.running, i, s.lost);
    DropCore(cfg, s, i);
    OrderWithout(s.running + s.waiting, i, s.nextId);
    DropFrame(s, i);
    assert DropRunning(s, i).running + s.waiting == (s.running + s.waiting)[..i] + (s.running + s.waiting)[i + 1..];
  }

  lemma DropFrame(s: Sys, i: nat)
    requires i < |s.running| && (s.running[i].pin.Some? ==> s.running[i].pin.value in s.tree.nodes)
    ensures var u := DropRunning(s, i);
      u == s.(tree := u.tree, pool := u.pool, running := s.running[..i] + s.running[i + 1..])
  {}

  lemma SafePin(cfg: Config, s: Sys, i: nat)
    requires ConfigOk(cfg) && Safe(cfg, s) && i < |s.running|
    ensures s.running[i].pin.Some? ==> s.running[i].pin.value in s.tree.nodes
  {}

  lemma ReleaseRunningKeeps(cfg: Config, s: Sys, i: nat)
    requires ConfigOk(cfg) && Inv(cfg, s) && s.pc.Idle? && i < |s.running|
    ensures s.running[i].pin.Some? ==> s.running[i].pin.value in s.tree.nodes
    ensures Inv(cfg, ReleaseRunning(s, i)) && ReleaseRunning(s, i).pc.Idle?
  {
    hide Core, InOrder;
    DropSafe(cfg, s, i);
    DropFrame(s, i);
  }

  lemma ReleaseWaitingKeeps(cfg: Config, s: Sys, i: nat)
    requires ConfigOk(cfg) && Safe(cfg, s) && i < |s.waiting|
    ensures Safe(cfg, ReleaseWaiting(s, i))
    ensures Phases(cfg, s) ==> Phases(cfg, ReleaseWaiting(s, i))
  {
    hide Core;
    var u := ReleaseWaiting(s, i);
    var k := |s.running| + i;
    OrderWithout(s.running + s.waiting, k, s.nextId);
    assert u.running + u.waiting == (s.running + s.waiting)[..k] + (s.running + s.waiting)[k + 1..];
  }

  /** `_release`: a request that is neither running nor waiting has nothing left to free. */
  function Release(cfg: Config, s: Sys, id: nat): (u: Sys)
    requires ConfigOk(cfg) && Inv(cfg, s) && s.pc.Idle?
    ensures Inv(cfg, u) && u.pc.Idle? && u.mem == s.mem && u.fault == s.fault && u.nextId == s.nextId
  {
    var i := Index(s.running, id);
    var j := Index(s.waiting, id);
    if i >= 0 then
      ReleaseRunningKeeps(cfg, s, i);
      ReleaseRunning(s, i)
    else if j >= 0 then
      ReleaseWaitingKeeps(cfg, s, j);
      ReleaseWaiting(s, j)
    else s
  }

  function ReleaseAll(cfg: Config, s: Sys, ids: seq<nat>): (u: Sys)
    requires ConfigOk(cfg) && Inv(cfg, s) && s.pc.Idle?
    ensures Inv(cfg, u) && u.pc.Idle? && u.mem == s.mem && u.fault == s.fault && u.nextId == s.nextId
    decreases ids
  {
    if ids == [] then s else ReleaseAll(cfg, Release(cfg, s, ids[0]), ids[1..])
  }

  // ---------------------------------------------------------------- admission

  /** Tokens still to be generated, as the reserve sees them. */
  function Remaining(r: Req): int {
    if r.maxTokens - |r.gen| > 0 then r.maxTokens - |r.gen| else 0
  }

  function Reserves(cfg: Config, rs: seq<Req>): int {
    if rs == [] then 0 else cfg.reserve(Remaining(rs[0])) + Reserves(cfg, rs[1..])
  }

  /** The lookup of a waiting request leaves out its last token, so at least one is always prefilled. */
  function LookupKey(cfg: Config, r: Req): seq<Chunk>
    requires ConfigOk(cfg) && r.Seq() != []
  {
    Chunks(r.Seq()[..|r.Seq()| - 1], cfg.bs)
  }

  function PinIf(t: Tree, blocks: seq<nat>, n: int): Tree
    requires n in t.nodes
  {
    if blocks == [] then t else Pin(t, n)
  }

  function UnpinIf(t: Tree, blocks: seq<nat>, n: int): Tree
    requires n in t.nodes
  {
    if blocks == [] then t else Unpin(t, n)
  }

  /** Request `r` with its matched prefix installed. */
  function Installed(cfg: Config, r: Req, blocks: seq<nat>, n: int): Req {
    if blocks == [] then r
    else r.(kv := Kv(|blocks| * cfg.bs, blocks, true, true), pin := Some(n), shared := |blocks|)
  }

  /** The matched request `r` with blocks and node, as the tree knows it. */
  lemma MatchFacts(cfg: Config, t: Tree, r: Req)
    requires ConfigOk(cfg) && Shape(t) && Parked(r)
    ensures var (n, len) := Find(t, LookupKey(cfg, r)); var blocks := Matched(t, LookupKey(cfg, r));
      && n in t.nodes && |blocks| == len && len * cfg.bs < |r.Seq()|
      && Adopted(cfg, t, Installed(cfg, r, blocks, n))
      && Pending(cfg, Installed(cfg, r, blocks, n))
      && NeedOf(cfg, Installed(cfg, r, blocks, n)) >= 1
  {
    var seq' := r.Seq()[..|r.Seq()| - 1];
    var x := LookupKey(cfg, r);
    var (n, len) := Find(t, x);
    var blocks := Matched(t, x);
    MatchLongest(t, x);
    ChunksPrefix(r.Seq(), |r.Seq()| - 1, cfg.bs);
    var c := Chunks(r.Seq(), cfg.bs);
    assert x == c[..|x|];
    DivBounds(|seq'|, cfg.bs);
    MulMono(len, |x|, cfg.bs);
    CeilBounds(|r.Seq()|, cfg.bs);
    if CeilDiv(|r.Seq()|, cfg.bs) <= len { MulMono(CeilDiv(|r.Seq()|, cfg.bs), len, cfg.bs); }
    forall i {:trigger blocks[i]} | 0 <= i < len ensures i < |c| && Entry(t, c[..i + 1], blocks[i]) {
      var b := blocks[i];
      assert x[..i + 1] == c[..i + 1];
    }
    assert c[..len] == x[..len] <= t.nodes[n].path;
  }
}
