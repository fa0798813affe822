/**
 The scheduler as an object over the block manager and the radix tree. Each phase of a tick is a
 method, proved to take the value of the whole system to what the state machine says.
 */
module SchedulerObject {
  import opened Basics
  import opened Tokens
  import opened PoolSpec
  import opened CacheSpec
  import opened RadixSpec
  import opened RadixUpdate
  import opened RadixInsertEvict
  import opened ServingState
  import opened ServingCore
  import opened Serving
  import opened ServingAdmit
  import opened ServingForward
  import opened ServingRun
  import B = BlockPool
  import C = RadixCache

  /** Outcome of an admission attempt: admitted, refused, or a prefix too long to adopt after it was forked. */
  datatype Verdict = Go | Stop | Broken

  class Scheduler {
    const cfg: Config
    const bm: B.BlockManager
    const radixTree: C.RadixTree
    var waiting: seq<Req>
    var running: seq<Req>
    var done: seq<Ended>
    var aborted: set<nat>
    var nextId: nat
    var pc: Pc
    /** The pool's slots, one cell each, over all layers. */
    var mem: seq<seq<Cell>>
    /** References that were taken and that nobody will give back. */
    ghost var lost: seq<nat>

    ghost function State(): Sys
      reads this, bm, bm.refCnt, radixTree
    {
      Sys(waiting, running, done, aborted, bm.State(), mem, radixTree.tree, lost, nextId, pc, false)
    }

    ghost predicate Valid()
      reads this, bm, bm.refCnt, bm.prevFree, bm.nextFree, radixTree, radixTree.lru
    {
      && ConfigOk(cfg) && bm.Valid() && radixTree.Valid()
      && bm.blockSize == cfg.bs == radixTree.blockSize && radixTree.floored == cfg.floored
    }

    constructor (cfg: Config, numBlocks: nat, kvSlotBytes: nat, numLayers: nat)
      requires ConfigOk(cfg) && kvSlotBytes > 0 && numLayers > 0
      ensures Valid() && this.cfg == cfg && State() == NewSys(cfg, numBlocks)
    {
      this.cfg := cfg;
      bm := new B.BlockManager(numBlocks, cfg.bs, kvSlotBytes, numLayers);
      radixTree := new C.RadixTree(cfg.bs, cfg.floored);
      waiting := [];
      running := [];
      done := [];
      aborted := {};
      nextId := 0;
      pc := Idle;
      mem := seq(numBlocks, _ => seq(cfg.bs, _ => 0));
      lost := [];
    }

    /** `submit`. */
    method Submit(prompt: seq<Token>, maxTokens: int, eos: Token)
      requires Valid() && Inv(cfg, State()) && Funded(cfg, State()) && prompt != []
      modifies this`waiting, this`nextId
      ensures Valid() && State() == Step(cfg, old(State()), Action.Submit(prompt, maxTokens, eos))
    {
      hide Inv, Funded;
      waiting := waiting + [Req(nextId, prompt, [], maxTokens, eos, Waiting, FRESH, None, 0)];
      nextId := nextId + 1;
    }

    /** `abort`: only noted; the next tick clears it. */
    method Abort(id: nat)
      requires Valid() && Inv(cfg, State()) && Funded(cfg, State())
      modifies this`aborted
      ensures Valid() && State() == Step(cfg, old(State()), Action.Abort(id))
    {
      hide Inv, Funded;
      aborted := aborted + {id};
    }

    // ---------------------------------------------------------------- release

    /** `_free_kv`: unpin, then give the blocks back. */
    method FreeKv(r: Req)
      requires Valid() && HoldsPin(radixTree.tree, r)
      modifies bm, bm.refCnt, bm.prevFree, bm.nextFree, radixTree, radixTree.lru
      ensures Valid() && HoldsPin(old(radixTree.tree), r)
      ensures radixTree.tree == UnpinOf(old(radixTree.tree), r)
      ensures bm.State() == Free(old(bm.State()), r.kv.table).1
    {
      hide Free, PoolOk, B.Linked, B.Chain, Shape, LruOk, C.Rep, Unpin;
      PinInArena(radixTree.nodes, radixTree.tree, radixTree.blockSize, r);
      if r.pin.Some? {
        radixTree.DecLockRef(r.pin.value);
      }
      var ok := bm.FreeBlocks(r.kv.table);
    }

    /** Running request `i` gives everything back and leaves the running list. */
    method Drop(i: nat)
      requires Valid() && Safe(cfg, State()) && i < |running|
      modifies this`running, bm, bm.refCnt, bm.prevFree, bm.nextFree, radixTree, radixTree.lru
      ensures Valid() && Safe(cfg, State())
      ensures HoldsPin(old(State()).tree, old(State()).running[i]) && State() == DropRunning(old(State()), i)
    {
      hide Safe, HoldsPin, UnpinOf, Free;
      SafeHolds(cfg, State(), i);
      DropSafe(cfg, State(), i);
      FreeKv(running[i]);
      running := running[..i] + running[i + 1..];
    }

    method ReleaseRunningAt(i: nat)
      requires Valid() && Safe(cfg, State()) && i < |running|
      modifies this`running, this`done, bm, bm.refCnt, bm.prevFree, bm.nextFree, radixTree, radixTree.lru
      ensures Valid() && Safe(cfg, State())
      ensures HoldsPin(old(State()).tree, old(State()).running[i]) && State() == ReleaseRunning(old(State()), i)
    {
      hide Safe, HoldsPin;
      ReleaseSafe(cfg, State(), i);
      var r := running[i];
      Drop(i);
      done := done + [Ended(Cleared(r, Finished), false)];
    }

    method ReleaseWaitingAt(i: nat)
      requires Valid() && Safe(cfg, State()) && i < |waiting|
      modifies this`waiting, this`done
      ensures Valid() && Safe(cfg, State()) && State() == ReleaseWaiting(old(State()), i)
    {
      hide Safe;
      ReleaseWaitingKeeps(cfg, State(), i);
      done := done + [Ended(waiting[i].(phase := Finished), false)];
      waiting := waiting[..i] + waiting[i + 1..];
    }

    /** `_release` of a request that may be running, waiting, or already gone. */
    method ReleaseRequest(id: nat)
      requires Valid() && Inv(cfg, State()) && pc.Idle?
      modifies this`running, this`waiting, this`done, bm, bm.refCnt, bm.prevFree, bm.nextFree, radixTree, radixTree.lru
      ensures Valid() && Inv(cfg, State()) && pc.Idle? && State() == Release(cfg, old(State()), id)
    {
      hide Safe, Phases, ReleaseRunning, ReleaseWaiting, Inv;
      InvSafe(cfg, State());
      ghost var u := Release(cfg, State(), id);
      var i, j := Index(running, id), Index(waiting, id);
      if i >= 0 {
        ReleaseRunningAt(i);
      } else if j >= 0 {
        ReleaseWaitingAt(j);
      }
    }

    /** Clearing the aborted set, in the order it is walked. */
    method ClearAborted(order: seq<nat>)
      requires Valid() && Inv(cfg, State()) && pc.Idle?
      modifies this`running, this`waiting, this`done, this`aborted, bm, bm.refCnt, bm.prevFree, bm.nextFree, radixTree, radixTree.lru
      ensures Valid() && pc.Idle? && State() == ReleaseAll(cfg, old(State()), order).(aborted := {})
      ensures Inv(cfg, State())
    {
      hide Inv, Release;
      ghost var s := State();
      var i := 0;
      while i < |order|
        invariant 0 <= i <= |order| && Valid() && Inv(cfg, State()) && pc.Idle?
        invariant ReleaseAll(cfg, State(), order[i..]) == ReleaseAll(cfg, s, order)
      {
        assert order[i..][1..] == order[i + 1..];
        ReleaseRequest(order[i]);
        i := i + 1;
      }
      assert order[i..] == [];
      AbortedKeeps(cfg, State());
      aborted := {};
    }

    /** `_release` of the first running request; `u` is the system as the state machine sees it. */
    method DropFirst(ghost u: Sys, ghost broken: bool)
      requires Valid() && Safe(cfg, u) && running != [] && Shows(u, broken)
      modifies this`running, this`done, bm, bm.refCnt, bm.prevFree, bm.nextFree, radixTree, radixTree.lru
      ensures Valid() && running == old(running)[1..]
      ensures HoldsPin(u.tree, u.running[0]) && Shows(ReleaseRunning(u, 0), broken)
    {
      hide Safe, HoldsPin, UnpinOf, Free, B.BlockManager.Valid, C.RadixTree.Valid;
      SafeHolds(cfg, u, 0);
      if broken { RequeuedFirst(u); }
      var r := running[0];
      FreeKv(r);
      running := running[1..];
      done := done + [Ended(Cleared(r, Finished), false)];
    }

    /** The state of the object, also when an admission broke off. */
    ghost predicate Shows(u: Sys, broken: bool)
      reads this, bm, bm.refCnt, radixTree
    {
      if broken then u.running != [] && State() == Requeued(u) else State() == u
    }

    /** `_release` of the oldest waiting request, which may hold the pin of an admission that broke off. */
    method DropWaiting(ghost u: Sys, ghost broken: bool)
      requires Valid() && Safe(cfg, u) && waiting != [] && running == [] && Shows(u, broken)
      modifies this`waiting, this`done, bm, bm.refCnt, bm.prevFree, bm.nextFree, radixTree, radixTree.lru
      ensures Valid() && waiting == old(waiting)[1..]
      ensures broken ==> HoldsPin(u.tree, u.running[0]) && Shows(ReleaseRunning(u, 0), false)
      ensures !broken ==> Shows(ReleaseWaiting(u, 0), false)
    {
      hide Safe, HoldsPin, UnpinOf, Free, B.BlockManager.Valid, C.RadixTree.Valid;
      var r := waiting[0];
      if broken {
        SafeHolds(cfg, u, 0);
      } else {
        WaitingParked(cfg, u);
        FreshNothing(bm.State());
      }
      NoPinHeld(radixTree.tree, r);
      FreeKv(r);
      done := done + [Ended(Cleared(r, Finished), false)];
      waiting := waiting[1..];
    }

    /** `_fail_all_inflight`, also after an admission that broke off. */
    method FailAllInflight(ghost s: Sys, ghost broken: bool)
      requires Valid() && Safe(cfg, s) && Shows(s, broken)
      modifies this, bm, bm.refCnt, bm.prevFree, bm.nextFree, radixTree, radixTree.lru
      ensures Valid() && State() == FailAll(cfg, s) && Inv(cfg, State())
    {
      hide Safe, Inv, ReleaseRunning, ReleaseWaiting, HoldsPin, FailAll, B.BlockManager.Valid, C.RadixTree.Valid;
      ghost var u, b := s, broken;
      while running != []
        invariant Valid() && Safe(cfg, u) && FailAll(cfg, u) == FailAll(cfg, s) && Shows(u, b)
        decreases |running|
      {
        FailRunning(cfg, u);
        DropFirst(u, b);
        u := ReleaseRunning(u, 0);
      }
      while waiting != []
        invariant Valid() && Safe(cfg, u) && FailAll(cfg, u) == FailAll(cfg, s) && Shows(u, b) && running == []
        decreases |waiting|
      {
        if b { FailRunning(cfg, u); } else { FailWaiting(cfg, u); }
        DropWaiting(u, b);
        u, b := if b then ReleaseRunning(u, 0) else ReleaseWaiting(u, 0), false;
      }
      FailEmpty(cfg, u);
      pc := Idle;
    }

    /** Preemption: the latest arrivals give way until every running request can take one more token. */
    method Preempt()
      requires Valid() && Inv(cfg, State()) && pc.Idle?
      modifies this`running, this`waiting, bm, bm.refCnt, bm.prevFree, bm.nextFree, radixTree, radixTree.lru
      ensures Valid() && pc.Idle? && State() == PreemptLoop(cfg, old(State())) && Inv(cfg, State())
    {
      hide Inv, Safe, DropRunning, HoldsPin, B.BlockManager.Valid, C.RadixTree.Valid;
      ghost var s := State();
      var free := bm.NumFree();
      while free < |running|
        invariant Valid() && Inv(cfg, State()) && pc.Idle? && free == |State().pool.free|
        invariant PreemptLoop(cfg, State()) == PreemptLoop(cfg, s)
        decreases |running|
      {
        PreemptKeeps(cfg, State());
        PreemptSteps(cfg, State());
        InvSafe(cfg, State());
        var last := |running| - 1;
        var victim := running[last];
        Drop(last);
        waiting := [Cleared(victim, Waiting)] + waiting;
        free := bm.NumFree();
      }
    }

    // ---------------------------------------------------------------- admission

    /** One attempt on the oldest waiting request; `left` is the budget afterwards. */
    method AdmitNext(budget: int) returns (verdict: Verdict, left: int)
      requires Valid() && Budgeted(cfg, State(), budget) && waiting != []
      requires TreeOk(State().tree, Handles(running)) && State().pc.Prefilling? && waiting[0].Seq() != []
      modifies this`running, this`waiting, this`pc, this`lost, bm, bm.refCnt, bm.prevFree, bm.nextFree, radixTree, radixTree.lru
      ensures var a := AdmitOne(cfg, old(State()), budget);
        && (verdict == Broken <==> a.Overflow?)
        && (verdict == Go <==> a.Admitted?)
        && Valid() && (verdict != Broken ==> State() == a.sys)
        && (verdict == Broken ==> a.sys.running != [] && State() == Requeued(a.sys))
        && (verdict == Go ==> left == a.budget)
    {
      hide Budgeted, TreeOk, Shape, LruOk, Evict, Free, Ref, Find, Matched, Chunks, CeilDiv, Pin, Unpin, Touch, B.BlockManager.Valid;
      hide C.RadixTree.Valid, Reserves, Core, Walk, EvictReady;
      ghost var s := State();
      BudgetedCore(cfg, s, budget);
      ghost var x := LookupKey(cfg, waiting[0]);
      ghost var need := CeilDiv(|waiting[0].Seq()|, cfg.bs) - |Matched(s.tree, x)| - budget;
      AttemptFacts(cfg, s.pool, s.tree, running, x, need, s.lost);
      left := budget;
      var r := waiting[0];
      var reserveBlocks := Reserves(cfg, running);
      var ownBlocks := cfg.reserve(Remaining(r));
      var tokens := r.Seq();
      var blocks, node := radixTree.MatchPrefix(tokens[..|tokens| - 1]);
      var needed := CeilDiv(|tokens|, cfg.bs) - |blocks|;
      radixTree.Counted();
      if left + radixTree.evictableBlocks - reserveBlocks - ownBlocks < needed {
        return Stop, left;
      }
      var fits;
      fits, left := PinAndEvict(blocks, node, needed, budget);
      if !fits {
        return Stop, left;
      }
      var joined := Join(blocks, node);
      if !joined {
        return Broken, left;
      }
      left := left - needed;
      verdict := Go;
    }

    /** Pin the match, evict the shortfall, and take the pin back when that is not enough. */
    method PinAndEvict(blocks: seq<nat>, node: int, needed: int, budget: int) returns (fits: bool, left: int)
      requires Valid() && node in radixTree.tree.nodes && EvictReady(radixTree.tree, bm.State(), blocks, node, needed - budget)
      modifies bm, bm.refCnt, bm.prevFree, bm.nextFree, radixTree, radixTree.lru
      ensures Valid() && node in old(radixTree.tree).nodes && EvictReady(old(radixTree.tree), old(bm.State()), blocks, node, needed - budget)
      ensures var (u, freed) := Evict(PinIf(old(radixTree.tree), blocks, node), needed - budget);
        && left == budget + |freed| && fits == (left >= needed)
        && bm.State() == Free(old(bm.State()), freed).1
        && node in u.nodes && radixTree.tree == if fits then u else UnpinIf(u, blocks, node)
    {
      hide Shape, LruOk, Evict, Free, Pin, Unpin, B.BlockManager.Valid, C.Rep;
      left := budget;
      C.RepKeys(radixTree.nodes, radixTree.tree, radixTree.blockSize);
      if blocks != [] {
        radixTree.IncLockRef(node);
      }
      if left < needed {
        var freed := radixTree.Evict(needed - left, bm);
        left := left + freed;
        if left < needed {
          C.RepKeys(radixTree.nodes, radixTree.tree, radixTree.blockSize);
          if blocks != [] {
            radixTree.DecLockRef(node);
          }
          return false, left;
        }
      }
      fits := true;
    }

    /**
     The oldest waiting request takes over the forked prefix and joins the running list; when the
     prefix is too long it stays where it is, with the pin, and the forked references are lost.
     */
    method Join(blocks: seq<nat>, node: int) returns (ok: bool)
      requires Valid() && waiting != [] && pc.Prefilling?
      modifies this`running, this`waiting, this`pc, this`lost, bm.refCnt
      ensures Valid()
      ensures var r, s := old(waiting)[0], old(State());
        && ok == (blocks == [] || Adopt(r.kv, blocks, cfg.bs, cfg.maxLen).0)
        && (ok ==> State() == s.(
              pool := Ref(s.pool, blocks).1,
              running := s.running + [Installed(cfg, r, blocks, node)],
              waiting := s.waiting[1..],
              pc := Prefilling(s.pc.k + 1)))
        && (!ok ==> State() == s.(
              pool := Ref(s.pool, blocks).1, lost := s.lost + blocks,
              waiting := [r.(pin := Some(node))] + s.waiting[1..]))
    {
      hide Ref, B.BlockManager.Valid, C.RadixTree.Valid;
      var r := waiting[0];
      C.RefNone(bm.State(), []);
      if |blocks| > 0 {
        r := r.(pin := Some(node));
        var done, forked := bm.Fork(blocks);
        var (adopted, kv) := Adopt(r.kv, forked, cfg.bs, cfg.maxLen);
        if !adopted {
          waiting := [r] + waiting[1..];
          lost := lost + blocks;
          return false;
        }
        r := r.(kv := kv, shared := |blocks|);
      }
      running := running + [r];
      waiting := waiting[1..];
      pc := Prefilling(pc.k + 1);
      ok := true;
    }

    /** The admission loop: arrival order, until one request does not fit. `broken`: a matched prefix was too long to adopt. */
    method Admit() returns (broken: bool)
      requires Valid() && Budgeted(cfg, State(), |State().pool.free|)
      modifies this`running, this`waiting, this`pc, this`lost, bm, bm.refCnt, bm.prevFree, bm.nextFree, radixTree, radixTree.lru
      ensures Valid()
      ensures var r := AdmitLoop(cfg, old(State()), |old(State()).pool.free|);
        && broken == r.broken
        && (!broken ==> State() == r.sys)
        && (broken ==> r.sys.running != [] && State() == Requeued(r.sys))
    {
      hide Budgeted, TreeOk, AdmitOne, B.BlockManager.Valid, C.RadixTree.Valid, Inv, Funded, Parked, Safe, Requeued;
      ghost var s, b := State(), |State().pool.free|;
      var budget := bm.NumFree();
      var going := true;
      broken := false;
      while going && waiting != []
        invariant Valid()
        invariant going ==> !broken && Budgeted(cfg, State(), budget) && AdmitLoop(cfg, State(), budget) == AdmitLoop(cfg, s, b)
        invariant !going && !broken ==> AdmitLoop(cfg, s, b) == Admission(State(), false)
        invariant broken ==> !going && AdmitLoop(cfg, s, b).broken && AdmitLoop(cfg, s, b).sys.running != []
        invariant broken ==> State() == Requeued(AdmitLoop(cfg, s, b).sys)
        decreases if going then |waiting| + 1 else 0
      {
        AdmitSteps(cfg, State(), budget);
        var verdict;
        verdict, budget := AdmitNext(budget);
        going := verdict == Go;
        broken := verdict == Broken;
      }
      if going { AdmitEnd(cfg, State(), budget); }
    }

    /** A tick up to the forward pass; when admission breaks off the loop drops everything in flight. */
    method TickStart(order: seq<nat>)
      requires Valid() && Inv(cfg, State()) && Funded(cfg, State()) && pc.Idle?
      requires (set i | 0 <= i < |order| :: order[i]) == aborted
      modifies this, bm, bm.refCnt, bm.prevFree, bm.nextFree, radixTree, radixTree.lru
      ensures Valid() && State() == Step(cfg, old(State()), Start(order))
    {
      hide Budgeted, B.BlockManager.Valid, C.RadixTree.Valid, Inv, Funded, ReleaseAll, AdmitLoop, PreemptLoop, Safe, FailAll, Requeued;
      ghost var s := State();
      ClearAborted(order);
      StartKeeps(cfg, State());
      pc := Prefilling(0);
      ghost var a := AdmitLoop(cfg, State(), |State().pool.free|);
      var broken := Admit();
      if broken {
        FailAllInflight(a.sys, true);
      } else if pc.k == 0 {
        PcKeeps(cfg, State(), Idle);
        pc := Idle;
        if running != [] {
          Preempt();
          pc := Decoding;
        }
      }
    }

    // ---------------------------------------------------------------- the forward pass

    /** `prepare_meta` of request `i`: the same function the request's cache is proved against. */
    method Prepare(i: nat, decode: bool) returns (ok: bool)
      requires Valid() && i < |running|
      modifies this`running, bm, bm.refCnt, bm.prevFree, bm.nextFree
      ensures Valid() && ok == PrepOf(cfg, old(State()), i, decode).ok && State() == WithPrep(cfg, old(State()), i, decode)
    {
      hide C.RadixTree.Valid, CeilDiv, Alloc, PoolOk, B.Linked, B.Chain;
      var r := running[i];
      var kv := r.kv;
      var len := if decode then 1 else |r.Seq()| - kv.cursor;
      ghost var s := State();
      if len >= cfg.maxLen || len < 0 {
        Unprepared(cfg, s, i, decode);
        return false;
      }
      if decode {
        if !kv.live || kv.cursor >= cfg.maxLen {
          Unprepared(cfg, s, i, decode);
          return false;
        }
        kv := kv.(cursor := kv.cursor + 1);
        running := running[i := r.(kv := kv)];
        if kv.cursor % cfg.bs == 1 {
          var got, blocks := bm.AllocBlocks(1);
          if !got {
            return false;
          }
          running := running[i := r.(kv := kv.(table := kv.table + blocks))];
        }
        return true;
      }
      if kv.cursor > 0 && !kv.adopted {
        Unprepared(cfg, s, i, decode);
        return false;
      }
      var got, blocks := bm.AllocBlocks(CeilDiv(len, cfg.bs));
      if !got {
        Unprepared(cfg, s, i, decode);
        return false;
      }
      if kv.cursor > 0 {
        kv := kv.(cursor := kv.cursor + len, table := kv.table + blocks);
      } else {
        kv := kv.(cursor := len, table := blocks, live := true);
      }
      running := running[i := r.(kv := kv)];
      ok := true;
    }

    /** One token per request of the batch, in order, with the new state of each. */
    method Sample(start: nat)
      requires Valid() && start <= |running|
      modifies this`running
      ensures Valid() && State() == SampleFrom(cfg, old(State()), start)
    {
      hide B.BlockManager.Valid, C.RadixTree.Valid, Gather;
      ghost var s := State();
      var i := start;
      while i < |running|
        invariant start <= i <= |running| && Valid() && SampleFrom(cfg, State(), i) == SampleFrom(cfg, s, start)
      {
        var r := running[i];
        var token := cfg.next(Gather(mem, r.kv.table, r.kv.cursor, cfg.bs));
        r := r.(gen := r.gen + [token], phase := Running);
        if token == r.eos || |r.gen| >= r.maxTokens {
          r := r.(phase := Finished);
        }
        running := running[i := r];
        i := i + 1;
      }
    }

    /** `run_batch`: metadata, cells, one sampled token each. On failure the loop drops everything. */
    method RunBatch() returns (ok: bool)
      requires Valid() && Inv(cfg, State()) && Funded(cfg, State()) && !pc.Idle?
      modifies this, bm, bm.refCnt, bm.prevFree, bm.nextFree
      ensures Valid() && 0 <= BatchStart(old(State())) <= |old(running)|
      ensures var s := old(State()); var p := PrepareFrom(cfg, s, BatchStart(s), |s.running|, s.pc.Decoding?);
        && ok == (p.0 && s.running != [])
        && (ok ==> State() == Forwarded(cfg, s))
        && (!ok ==> State() == p.1)
    {
      hide B.BlockManager.Valid, C.RadixTree.Valid, Inv, Funded, WithPrep, SampleFrom, Preparing, PrepOf;
      ghost var s := State();
      BatchFresh(cfg, s);
      var decode := pc.Decoding?;
      var start: nat := if pc.Prefilling? then |running| - pc.k else 0;
      var i := start;
      ok := true;
      while ok && i < |running|
        invariant start <= i <= |running| == |s.running| && Valid() && pc == s.pc
        invariant ok ==> PrepareFrom(cfg, State(), i, |running|, decode) == PrepareFrom(cfg, s, start, |s.running|, decode)
        invariant !ok ==> PrepareFrom(cfg, s, start, |s.running|, decode) == (false, State())
        decreases |running| - i, ok
      {
        PrepareSteps(cfg, State(), i, decode);
        ok := Prepare(i, decode);
        if ok {
          i := i + 1;
        }
      }
      if !ok || running == [] {
        return false;
      }
      mem := WriteBatch(cfg, mem, running[start..], decode);
      Sample(start);
      pc := Idle;
    }

    // ---------------------------------------------------------------- finished requests

    /**
     Record finished request `i` in the tree, give its blocks back, unpin, and let it go. `broken`: as
     written, recording left a part-block leaf.
     */
    method FinishOne(i: nat) returns (broken: bool)
      requires Valid() && Safe(cfg, State()) && i < |running| && Ready(cfg, running[i]) && running[i].phase == Finished
      modifies this`running, this`done, bm, bm.refCnt, bm.prevFree, bm.nextFree, radixTree, radixTree.lru
      ensures old(Safe(cfg, State()) && i < |running| && Ready(cfg, running[i]) && Shape(radixTree.tree))
      ensures broken == Faults(cfg, old(State()), i)
      ensures !broken ==> Valid() && State() == FinishAt(cfg, old(State()), i)
    {
      hide Safe, Core, Ready, B.BlockManager.Valid, C.RadixTree.Valid, HoldsPin, Free, Ref, UnpinOf, RadixInsertEvict.Insert, Chunks, DivergesMidBlock, Known;
      hide C.RadixTree.Inserted, C.Whole;
      var r := running[i];
      ghost var s := State();
      SafeShape(cfg, s, i);
      SafeHolds(cfg, s, i);
      if cfg.useRadix {
        TableAllocated(cfg, s, i);
        FinishDefined(cfg, s, i);
        InsertHolds(cfg, s, i);
        var key := if cfg.cutAtCursor && r.kv.cursor <= |r.Seq()| then r.Seq()[..r.kv.cursor] else r.Seq();
        var ok, leaf := radixTree.Insert(key, r.kv.table, bm);
        radixTree.InsertedWhole(s.tree, key, r.kv.table, ok, leaf);
        radixTree.InsertedNode(s.tree, key, r.kv.table, ok, leaf);
        if !C.Whole(radixTree.nodes[leaf], cfg.bs) {
          return true;
        }
      }
      FreeKv(r);
      running := running[..i] + running[i + 1..];
      done := done + [Ended(Cleared(r, Finished), true)];
      broken := false;
    }

    /** The finishing loop; it stops when recording leaves a part-block leaf. */
    method FinishAll() returns (broken: bool)
      requires Valid() && Finishing(cfg, State(), 0)
      modifies this`running, this`done, bm, bm.refCnt, bm.prevFree, bm.nextFree, radixTree, radixTree.lru
      ensures broken == FinishFrom(cfg, old(State()), 0).fault
      ensures !broken ==> Valid() && State() == FinishFrom(cfg, old(State()), 0)
    {
      hide Safe, Ready, B.BlockManager.Valid, C.RadixTree.Valid, FinishAt, Faults, Finishing;
      ghost var s := State();
      var i := 0;
      broken := false;
      while !broken && i < |running|
        invariant 0 <= i
        invariant broken ==> FinishFrom(cfg, s, 0).fault
        invariant !broken ==> Valid() && Finishing(cfg, State(), i) && i <= |running| && FinishFrom(cfg, State(), i) == FinishFrom(cfg, s, 0)
        decreases if broken then 0 else |running| - i + 1
      {
        FinishSteps(cfg, State(), i);
        if running[i].phase == Finished {
          broken := FinishOne(i);
        } else {
          i := i + 1;
        }
      }
    }

    /** A whole forward step: the batch, then the finished requests, or everything dropped. */
    method Pass() returns (ok: bool, broken: bool)
      requires Valid() && Inv(cfg, State()) && Funded(cfg, State()) && !pc.Idle?
      modifies this, bm, bm.refCnt, bm.prevFree, bm.nextFree, radixTree, radixTree.lru
      ensures broken == Step(cfg, old(State()), Action.Pass).fault
      ensures !broken ==> Valid() && State() == Step(cfg, old(State()), Action.Pass)
    {
      hide Safe, Inv, Funded, B.BlockManager.Valid, C.RadixTree.Valid, Finishing, PrepareFrom, Forwarded, FinishFrom, FailAll;
      ghost var s := State();
      BatchFresh(cfg, s);
      PrepareAll(cfg, s, BatchStart(s), BatchStart(s), |s.running|, s.pc.Decoding?);
      ok := RunBatch();
      broken := false;
      if ok {
        ForwardedFinishing(cfg, s);
        broken := FinishAll();
      } else {
        FailAllFault(cfg, State());
        FailAllInflight(State(), false);
      }
    }
  }

  /**
   The state of an admission that broke off as the lists have it: the request that holds the pin is
   still first in the queue. It is released after the running ones, where `u` lists it last.
   */
  function Requeued(u: Sys): Sys
    requires u.running != []
  {
    var k := |u.running| - 1;
    u.(running := u.running[..k], waiting := [u.running[k]] + u.waiting)
  }

  lemma RequeuedFirst(u: Sys)
    requires |u.running| > 1
    ensures Requeued(u).running[0] == u.running[0]
    ensures Requeued(u.(running := u.running[1..])).running == Requeued(u).running[1..]
    ensures Requeued(u.(running := u.running[1..])).waiting == Requeued(u).waiting
  {}

  lemma WaitingParked(cfg: Config, s: Sys)
    requires ConfigOk(cfg) && Safe(cfg, s) && s.waiting != []
    ensures Parked(s.waiting[0]) && Cleared(s.waiting[0], Finished) == s.waiting[0].(phase := Finished)
  {
    hide Core;
  }

  lemma FreshNothing(p: Pool)
    ensures Free(p, FRESH.table) == (true, p)
  {}

  lemma NoPinHeld(t: Tree, r: Req)
    ensures r.pin.None? ==> HoldsPin(t, r) && UnpinOf(t, r) == t
  {}

  /** What pinning, evicting `need` blocks and unpinning demand of the tree and the pool. */
  ghost predicate EvictReady(t: Tree, p: Pool, blocks: seq<nat>, n: int, need: int)
    requires n in t.nodes
  {
    var u := PinIf(t, blocks, n);
    && (forall m :: m in t.nodes ==> t.nodes[m].lock >= 0)
    && Shape(u) && LruOk(u)
    && (need <= 0 ==> Evict(u, need) == (u, []))
    && Free(p, []) == (true, p)
    && Free(p, Evict(u, need).1).0
    && n in Evict(u, need).0.nodes
    && (blocks != [] ==> Evict(u, need).0.nodes[n].lock > if n == ROOT then 1 else 0)
  }

  /** The node a request pinned is there, and pinned. */
  ghost predicate HoldsPin(t: Tree, r: Req) {
    r.pin.Some? ==> r.pin.value in t.nodes && t.nodes[r.pin.value].lock > if r.pin.value == ROOT then 1 else 0
  }

  lemma PinInArena(nodes: map<int, C.RadixNode>, t: Tree, bs: nat, r: Req)
    requires bs > 0 && C.Rep(nodes, t, bs) && HoldsPin(t, r)
    ensures r.pin.Some? ==> r.pin.value in nodes
  {}

  /** Every running request's pin is one of the outstanding handles, so its node is pinned. */
  lemma SafeHolds(cfg: Config, s: Sys, i: nat)
    requires ConfigOk(cfg) && Safe(cfg, s) && i < |s.running|
    ensures HoldsPin(s.tree, s.running[i])
    ensures s.running[i].pin.Some? ==> s.running[i].pin.value in s.tree.nodes
  {
    var r := s.running[i];
    if r.pin.Some? {
      var hs, h := Handles(s.running) + [], r.pin.value;
      SplitAt(s.running, i);
      var k := |Handles(s.running[..i])|;
      assert hs[k] == h;
      PinsPositive(s.tree, hs, h, k);
    }
  }

  lemma InvSafe(cfg: Config, s: Sys)
    requires ConfigOk(cfg) && Inv(cfg, s)
    ensures Safe(cfg, s)
  {}

  lemma PreemptSteps(cfg: Config, s: Sys)
    requires ConfigOk(cfg) && Inv(cfg, s) && s.pc.Idle? && |s.pool.free| < |s.running|
    requires s.running[|s.running| - 1].pin.Some? ==> s.running[|s.running| - 1].pin.value in s.tree.nodes
    requires Inv(cfg, PreemptLast(s)) && PreemptLast(s).pc.Idle?
    ensures PreemptLoop(cfg, s) == PreemptLoop(cfg, PreemptLast(s)) && |PreemptLast(s).running| < |s.running|
  {
    hide Inv;
  }

  /** What the tree operations of an admission attempt demand. */
  lemma AttemptFacts(cfg: Config, p: Pool, t: Tree, rs: seq<Req>, x: seq<Chunk>, need: int, lost: seq<nat>)
    requires ConfigOk(cfg) && Core(cfg, p, t, rs, [], -1, lost)
    ensures var (n, blocks) := (Find(t, x).0, Matched(t, x));
      n in t.nodes && n in Touch(t, n).nodes && EvictReady(Touch(t, n), p, blocks, n, need)
  {
    var (n, blocks, u) := (Find(t, x).0, Matched(t, x), Pinned(t, x));
    PinnedCore(cfg, p, t, rs, x, lost);
    CoreEvict(cfg, p, u, rs, Extra(blocks, n), need, lost);
    LocksNonNegative(t, Handles(rs) + []);
    if blocks != [] {
      EvictKeeps(u, need, Handles(rs) + [n]);
      EndPinned(Evict(u, need).0, Handles(rs), n);
    }
    PinnedStays(t, Handles(rs) + [], x, need);
  }

  lemma LocksNonNegative(t: Tree, hs: seq<int>)
    requires TreeOk(t, hs)
    ensures forall m :: m in t.nodes ==> t.nodes[m].lock >= 0
  {}

  lemma EndPinned(t: Tree, hs: seq<int>, n: int)
    requires TreeOk(t, hs + [n])
    ensures n in t.nodes && t.nodes[n].lock > if n == ROOT then 1 else 0
  {
    assert (hs + [n])[|hs|] == n;
    PinsPositive(t, hs + [n], n, |hs|);
  }

  lemma AdmitSteps(cfg: Config, s: Sys, budget: int)
    requires ConfigOk(cfg) && Budgeted(cfg, s, budget) && s.waiting != []
    ensures TreeOk(s.tree, Handles(s.running)) && s.pc.Prefilling? && s.waiting[0].Seq() != []
    ensures var a := AdmitOne(cfg, s, budget);
      && (a.Admitted? ==>
            && |a.sys.waiting| < |s.waiting| && Budgeted(cfg, a.sys, a.budget)
            && AdmitLoop(cfg, s, budget) == AdmitLoop(cfg, a.sys, a.budget))
      && (!a.Admitted? ==> AdmitLoop(cfg, s, budget) == Admission(a.sys, a.Overflow?))
      && (a.Overflow? ==> a.sys.running != [])
  {
    hide Budgeted, TreeOk, AdmitOne, Safe;
    BudgetedCore(cfg, s, budget);
    AttemptShape(cfg, s, budget);
    AttemptKeeps(cfg, s, budget);
  }

  lemma AdmitEnd(cfg: Config, s: Sys, budget: int)
    requires ConfigOk(cfg) && Budgeted(cfg, s, budget) && s.waiting == []
    ensures AdmitLoop(cfg, s, budget) == Admission(s, false)
  {
    hide Budgeted;
  }

  lemma Unprepared(cfg: Config, s: Sys, i: nat, decode: bool)
    requires ConfigOk(cfg) && i < |s.running|
    ensures PrepOf(cfg, s, i, decode).kv == s.running[i].kv && PrepOf(cfg, s, i, decode).pool == s.pool
      ==> WithPrep(cfg, s, i, decode) == s
  {
    if PrepOf(cfg, s, i, decode).kv == s.running[i].kv && PrepOf(cfg, s, i, decode).pool == s.pool {
      assert s.running[i := s.running[i].(kv := s.running[i].kv)] == s.running;
    }
  }

  lemma PrepareSteps(cfg: Config, s: Sys, i: nat, decode: bool)
    requires ConfigOk(cfg) && i < |s.running|
    ensures |WithPrep(cfg, s, i, decode).running| == |s.running| && WithPrep(cfg, s, i, decode).pc == s.pc
    ensures PrepareFrom(cfg, s, i, |s.running|, decode)
      == if PrepOf(cfg, s, i, decode).ok then PrepareFrom(cfg, WithPrep(cfg, s, i, decode), i + 1, |s.running|, decode)
         else (false, WithPrep(cfg, s, i, decode))
  {
    hide PrepOf;
  }

  lemma TableAllocated(cfg: Config, s: Sys, i: nat)
    requires ConfigOk(cfg) && Safe(cfg, s) && i < |s.running|
    ensures forall j :: 0 <= j < |s.running[i].kv.table| ==> Allocated(s.pool, s.running[i].kv.table[j])
  {
    hide Core;
    forall j | 0 <= j < |s.running[i].kv.table| ensures Allocated(s.pool, s.running[i].kv.table[j]) {
      TableInPool(cfg, s.pool, s.tree, s.running, i, j, s.lost);
    }
  }

  /** Recording does not disturb the request's own pin. */
  lemma InsertHolds(cfg: Config, s: Sys, i: nat)
    requires ConfigOk(cfg) && Safe(cfg, s) && i < |s.running| && Shape(s.tree)
    requires |RecordKey(cfg, s.running[i])| <= |s.running[i].kv.table|
    ensures HoldsPin(Insert(s.tree, RecordKey(cfg, s.running[i]), s.running[i].kv.table), s.running[i])
  {
    var r := s.running[i];
    var x := RecordKey(cfg, r);
    if r.pin.Some? {
      var hs, h := Handles(s.running) + [], r.pin.value;
      InsertKeeps(s.tree, x, r.kv.table, hs);
      SplitAt(s.running, i);
      var k := |Handles(s.running[..i])|;
      assert hs[k] == h;
      hide Insert;
      PinsPositive(Insert(s.tree, x, r.kv.table), hs, h, k);
    }
  }

  lemma FinishSteps(cfg: Config, s: Sys, i: nat)
    requires ConfigOk(cfg) && Finishing(cfg, s, i) && i < |s.running| && !s.fault
    ensures Safe(cfg, s) && Shape(s.tree) && Ready(cfg, s.running[i])
    ensures s.running[i].phase != Finished ==> Finishing(cfg, s, i + 1) && FinishFrom(cfg, s, i) == FinishFrom(cfg, s, i + 1)
    ensures s.running[i].phase == Finished && Faults(cfg, s, i) ==> FinishFrom(cfg, s, i).fault
    ensures s.running[i].phase == Finished && !Faults(cfg, s, i) ==>
      && Finishing(cfg, FinishAt(cfg, s, i), i) && !FinishAt(cfg, s, i).fault
      && |FinishAt(cfg, s, i).running| < |s.running| && i <= |FinishAt(cfg, s, i).running|
      && FinishFrom(cfg, s, i) == FinishFrom(cfg, FinishAt(cfg, s, i), i)
  {
    hide Finishing, FinishAt, Faults, Ready, Safe;
    FinishingSafe(cfg, s, i);
    FinishStep(cfg, s, i);
    if s.running[i].phase == Finished && !Faults(cfg, s, i) { FinishBounds(cfg, FinishAt(cfg, s, i), i); }
  }
}
