/**
 Scheduling transparency: with a deterministic model, batching, prefix sharing, eviction,
 preemption with recomputation, aborts and crashes never change what a request generates.
 */
module ServingSound {
  import opened Basics
  import opened Tokens
  import opened PoolSpec
  import opened CacheSpec
  import opened RadixSpec
  import opened RadixUpdate
  import opened RadixInsertEvict
  import opened ServingState
  import opened ServingCore
  import opened Serving
  import opened ServingAdmit
  import opened ServingForward
  import opened ServingContent

  // ---------------------------------------------------------------- the reference

  /** Greedy generation of one request alone, with no cache: continue from `gen` until it stops. */
  function Isolated(cfg: Config, prompt: seq<Token>, gen: seq<Token>, maxTokens: int, eos: Token): seq<Token>
    decreases if maxTokens > |gen| then maxTokens - |gen| else 0
  {
    var t := cfg.next(Correct(cfg, prompt + gen));
    var g := gen + [t];
    if t == eos || |g| >= maxTokens then g else Isolated(cfg, prompt, g, maxTokens, eos)
  }

  function Answer(cfg: Config, r: Req): seq<Token> {
    Isolated(cfg, r.prompt, [], r.maxTokens, r.eos)
  }

  lemma {:induction false} IsolatedExtends(cfg: Config, prompt: seq<Token>, gen: seq<Token>, maxTokens: int, eos: Token)
    ensures gen <= Isolated(cfg, prompt, gen, maxTokens, eos)
    decreases if maxTokens > |gen| then maxTokens - |gen| else 0
  {
    var t := cfg.next(Correct(cfg, prompt + gen));
    var g := gen + [t];
    if !(t == eos || |g| >= maxTokens) { IsolatedExtends(cfg, prompt, g, maxTokens, eos); }
  }

  /** What `r` has generated so far leads to the isolated answer, or is it when `r` is finished. */
  predicate OnTrack(cfg: Config, r: Req) {
    if r.phase == Finished then r.gen == Answer(cfg, r)
    else Isolated(cfg, r.prompt, r.gen, r.maxTokens, r.eos) == Answer(cfg, r)
  }

  predicate Left(cfg: Config, e: Ended) {
    if e.normal then e.req.gen == Answer(cfg, e.req) else e.req.gen <= Answer(cfg, e.req)
  }

  ghost predicate Tracks(cfg: Config, s: Sys) {
    && (forall i {:trigger s.waiting[i]} :: 0 <= i < |s.waiting| ==> s.waiting[i].phase == Waiting && OnTrack(cfg, s.waiting[i]))
    && (forall i {:trigger s.running[i]} :: 0 <= i < |s.running| ==> OnTrack(cfg, s.running[i]))
    && (forall i {:trigger s.done[i]} :: 0 <= i < |s.done| ==> Left(cfg, s.done[i]))
  }

  ghost predicate Sound(cfg: Config, s: Sys)
    requires ConfigOk(cfg)
  {
    Content(cfg, s) && Tracks(cfg, s)
  }

  /** Prefix sharing is off, or what is recorded is limited to what was computed. */
  predicate Faithful(cfg: Config) {
    !cfg.useRadix || cfg.cutAtCursor
  }

  // ---------------------------------------------------------------- leaving without finishing

  lemma LeftEarly(cfg: Config, r: Req, q: Req)
    requires OnTrack(cfg, r) && q == r.(kv := q.kv, pin := q.pin, shared := q.shared, phase := q.phase)
    ensures Left(cfg, Ended(q, false))
  {
    if r.phase != Finished { IsolatedExtends(cfg, r.prompt, r.gen, r.maxTokens, r.eos); }
  }

  ghost predicate Shrinks(t: Tree, u: Tree) {
    forall x, b :: Entry(u, x, b) ==> Entry(t, x, b)
  }

  lemma UnpinShrinks(t: Tree, r: Req)
    requires r.pin.Some? ==> r.pin.value in t.nodes
    ensures Shrinks(t, UnpinOf(t, r))
  {
    SameMapHeld(t, UnpinOf(t, r));
  }

  lemma EvictShrinks'(t: Tree, need: int)
    requires Shape(t) && LruOk(t)
    ensures Shrinks(t, Evict(t, need).0)
  {
    forall x, b | Entry(Evict(t, need).0, x, b) ensures Entry(t, x, b) { EvictRemoves(t, need, x, b); }
  }

  lemma DropSound(cfg: Config, s: Sys, i: nat)
    requires ConfigOk(cfg) && Sound(cfg, s) && i < |s.running|
    requires s.running[i].pin.Some? ==> s.running[i].pin.value in s.tree.nodes
    ensures Sound(cfg, DropRunning(s, i))
  {
    hide OnTrack, ContentAt, Left, UnpinOf, Entry;
    UnpinShrinks(s.tree, s.running[i]);
    var u := DropRunning(s, i);
    forall j {:trigger u.running[j]} | 0 <= j < |u.running|
      ensures ContentAt(cfg, u.mem, u.running[j], u.running[j].kv.cursor) && OnTrack(cfg, u.running[j])
    {
      var k := if j < i then j else j + 1;
      assert u.running[j] == s.running[k];
    }
  }

  lemma AddLeft(cfg: Config, s: Sys, e: Ended)
    requires ConfigOk(cfg) && Sound(cfg, s) && Left(cfg, e)
    ensures Sound(cfg, s.(done := s.done + [e]))
  {
    hide Content, Left, OnTrack;
    ContentSame(cfg, s, s.(done := s.done + [e]));
  }

  lemma ReleaseRunningSound(cfg: Config, s: Sys, i: nat)
    requires ConfigOk(cfg) && Sound(cfg, s) && i < |s.running|
    requires s.running[i].pin.Some? ==> s.running[i].pin.value in s.tree.nodes
    ensures Sound(cfg, ReleaseRunning(s, i))
  {
    hide Content, DropRunning;
    DropSound(cfg, s, i);
    var r := s.running[i];
    LeftEarly(cfg, r, Cleared(r, Finished));
    DropFrame(s, i);
    AddLeft(cfg, DropRunning(s, i), Ended(Cleared(r, Finished), false));
  }

  lemma ReleaseWaitingSound(cfg: Config, s: Sys, i: nat)
    requires ConfigOk(cfg) && Sound(cfg, s) && i < |s.waiting|
    ensures Sound(cfg, ReleaseWaiting(s, i))
  {
    hide Content, Left, OnTrack;
    var r := s.waiting[i];
    assert OnTrack(cfg, r);
    LeftEarly(cfg, r, r.(phase := Finished));
    ContentSame(cfg, s, ReleaseWaiting(s, i));
  }

  lemma ContentSame(cfg: Config, s: Sys, u: Sys)
    requires ConfigOk(cfg) && Content(cfg, s) && u.mem == s.mem && u.tree == s.tree && u.running == s.running
    ensures Content(cfg, u)
  {}

  lemma {:induction false} ReleaseAllSound(cfg: Config, s: Sys, ids: seq<nat>)
    requires ConfigOk(cfg) && Inv(cfg, s) && s.pc.Idle? && Sound(cfg, s)
    ensures Sound(cfg, ReleaseAll(cfg, s, ids))
    decreases ids
  {
    hide Inv, Sound;
    if ids != [] {
      var i := Index(s.running, ids[0]);
      var j := Index(s.waiting, ids[0]);
      if i >= 0 {
        ReleaseRunningKeeps(cfg, s, i);
        ReleaseRunningSound(cfg, s, i);
      } else if j >= 0 {
        ReleaseWaitingSound(cfg, s, j);
      }
      ReleaseAllSound(cfg, Release(cfg, s, ids[0]), ids[1..]);
    }
  }

  // ---------------------------------------------------------------- admission

  lemma TreeSound(cfg: Config, s: Sys, u: Sys)
    requires ConfigOk(cfg) && Sound(cfg, s) && Shrinks(s.tree, u.tree)
    requires u == s.(tree := u.tree, pool := u.pool, pc := u.pc, fault := u.fault, aborted := u.aborted)
    ensures Sound(cfg, u)
  {
    hide OnTrack, ContentAt, Left, Entry;
  }

  lemma PinnedShrinks(t: Tree, x: seq<Chunk>, need: int, blocks: seq<nat>)
    requires Shape(t) && Shape(Pinned(t, x)) && LruOk(Pinned(t, x))
    requires Find(t, x).0 in Evict(Pinned(t, x), need).0.nodes
    ensures Shrinks(t, Touch(t, Find(t, x).0)) && Shrinks(t, Evict(Pinned(t, x), need).0)
    ensures Shrinks(t, UnpinIf(Evict(Pinned(t, x), need).0, blocks, Find(t, x).0))
  {
    hide Entry, Pinned, Evict;
    var n := Find(t, x).0;
    SameMapHeld(t, Touch(t, n));
    PinnedMap(t, x);
    SameMapHeld(t, Pinned(t, x));
    EvictShrinks'(Pinned(t, x), need);
    var e := Evict(Pinned(t, x), need).0;
    SameMapHeld(e, UnpinIf(e, blocks, n));
  }

  lemma AdmitSound(cfg: Config, s: Sys, budget: int)
    requires ConfigOk(cfg) && Budgeted(cfg, s, budget) && s.waiting != [] && Sound(cfg, s)
    requires TreeOk(s.tree, Handles(s.running)) && s.waiting[0].Seq() != []
    ensures Sound(cfg, AdmitOne(cfg, s, budget).sys)
  {
    hide Budgeted, Core, TreeOk, Shape, LruOk, Sound, Adopted, Pending, Evict, Free, Ref, Find, Walk, Matched, Pinned, StopsAt, Chunks, CeilDiv, Shrinks, UnpinIf, Touch;
    BudgetedCore(cfg, s, budget);
    var r := s.waiting[0];
    var x := LookupKey(cfg, r);
    var n := Find(s.tree, x).0;
    var blocks := Matched(s.tree, x);
    var need := CeilDiv(|r.Seq()|, cfg.bs) - |blocks| - budget;
    PinnedStays(s.tree, Handles(s.running), x, need);
    PinnedShrinks(s.tree, x, need, blocks);
    var u := AdmitOne(cfg, s, budget).sys;
    if AdmitOne(cfg, s, budget).Admitted? {
      MatchSurvives(cfg, s.pool, s.tree, s.running, r, need, s.lost);
      MatchFacts(cfg, s.tree, r);
      JoinSound(cfg, s, u, Installed(cfg, r, blocks, n));
    } else if AdmitOne(cfg, s, budget).Overflow? {
      BrokenSound(cfg, s, u, r.(pin := Some(n)));
    } else {
      TreeSound(cfg, s, u);
    }
  }

  lemma ShrinksSelf(t: Tree)
    ensures Shrinks(t, t)
  {}

  /** A request that holds nothing but a pin relies on no cell. */
  lemma BrokenSound(cfg: Config, s: Sys, u: Sys, i: Req)
    requires ConfigOk(cfg) && Sound(cfg, s) && s.waiting != [] && Shrinks(s.tree, u.tree) && i.kv.cursor == 0
    requires u == s.(tree := u.tree, pool := u.pool, lost := u.lost, running := s.running + [i], waiting := s.waiting[1..])
    requires i == s.waiting[0].(pin := i.pin)
    ensures Sound(cfg, u)
  {
    hide Entry, Correct;
    ContentTreeSub(cfg, s.mem, s.tree, u.tree);
    assert OnTrack(cfg, s.waiting[0]);
    assert OnTrack(cfg, i);
    assert Gather(u.mem, i.kv.table, 0, cfg.bs) == [];
    assert ContentAt(cfg, u.mem, i, 0);
    hide OnTrack, ContentAt, Left;
  }

  /** The admitted request reads its adopted prefix from the tree's blocks. */
  lemma JoinSound(cfg: Config, s: Sys, u: Sys, i: Req)
    requires ConfigOk(cfg) && Sound(cfg, s) && s.waiting != [] && Shrinks(s.tree, u.tree)
    requires u == s.(tree := u.tree, pool := u.pool, running := s.running + [i], waiting := s.waiting[1..], pc := u.pc)
    requires Adopted(cfg, u.tree, i) && Pending(cfg, i)
    requires i == s.waiting[0].(kv := i.kv, pin := i.pin, shared := i.shared)
    ensures Sound(cfg, u)
  {
    hide Entry, Adopted, Correct;
    ContentTreeSub(cfg, s.mem, s.tree, u.tree);
    AdoptedContent(cfg, u.mem, u.tree, i);
    assert OnTrack(cfg, s.waiting[0]);
    assert OnTrack(cfg, i);
    hide OnTrack, ContentAt, Left;
  }

  lemma {:induction false} AdmitLoopSound(cfg: Config, s: Sys, budget: int)
    requires ConfigOk(cfg) && Budgeted(cfg, s, budget) && Sound(cfg, s)
    ensures Sound(cfg, AdmitLoop(cfg, s, budget).sys)
    decreases |s.waiting|
  {
    hide Budgeted, Inv, Funded, TreeOk, Core, Shape, AdmitOne, Parked, Sound;
    BudgetedCore(cfg, s, budget);
    if s.waiting != [] {
      AttemptShape(cfg, s, budget);
      AdmitSound(cfg, s, budget);
      var a := AdmitOne(cfg, s, budget);
      if a.Admitted? {
        AdmittedKeeps(cfg, s, budget);
        AdmitLoopSound(cfg, a.sys, a.budget);
      }
    }
  }

  lemma PreemptSound(cfg: Config, s: Sys)
    requires ConfigOk(cfg) && Sound(cfg, s) && s.running != []
    requires s.running[|s.running| - 1].pin.Some? ==> s.running[|s.running| - 1].pin.value in s.tree.nodes
    requires s.running[|s.running| - 1].phase == Running
    ensures Sound(cfg, PreemptLast(s))
  {
    hide DropRunning, Left;
    var i := |s.running| - 1;
    DropSound(cfg, s, i);
    DropFrame(s, i);
    var r := s.running[i];
    assert OnTrack(cfg, r);
    assert OnTrack(cfg, Cleared(r, Waiting));
    hide OnTrack, Content;
    ContentSame(cfg, DropRunning(s, i), PreemptLast(s));
  }

  lemma {:induction false} PreemptLoopSound(cfg: Config, s: Sys)
    requires ConfigOk(cfg) && Inv(cfg, s) && s.pc.Idle? && Sound(cfg, s)
    ensures Sound(cfg, PreemptLoop(cfg, s))
    decreases |s.running|
  {
    hide Sound;
    if |s.pool.free| < |s.running| {
      LastRuns(cfg, s);
      hide Inv;
      PreemptKeeps(cfg, s);
      PreemptSound(cfg, s);
      PreemptLoopSound(cfg, PreemptLast(s));
    }
  }

  lemma TickSound(cfg: Config, s: Sys, order: seq<nat>)
    requires ConfigOk(cfg) && Inv(cfg, s) && s.pc.Idle? && Sound(cfg, s)
    ensures Sound(cfg, Tick(cfg, s, order))
  {
    hide Inv, Budgeted, Sound, Shrinks, Safe;
    var released := ReleaseAll(cfg, s, order);
    ReleaseAllSound(cfg, s, order);
    ShrinksSelf(released.tree);
    var cleared := released.(aborted := {});
    AbortedKeeps(cfg, released);
    StartKeeps(cfg, cleared);
    TreeSound(cfg, released, cleared.(pc := Prefilling(0)));
    AdmitLoopSound(cfg, cleared.(pc := Prefilling(0)), |cleared.pool.free|);
    var a := AdmitLoop(cfg, cleared.(pc := Prefilling(0)), |cleared.pool.free|);
    if a.broken {
      FailSound(cfg, a.sys);
    } else if a.sys.pc.k == 0 {
      PcKeeps(cfg, a.sys, Idle);
      var idle := a.sys.(pc := Idle);
      ShrinksSelf(a.sys.tree);
      TreeSound(cfg, a.sys, idle);
      if idle.running != [] {
        PreemptLoopSound(cfg, idle);
        var v := PreemptLoop(cfg, idle);
        ShrinksSelf(v.tree);
        TreeSound(cfg, v, v.(pc := Decoding));
      }
    }
  }

  lemma FailSound(cfg: Config, s: Sys)
    requires ConfigOk(cfg) && Safe(cfg, s) && Sound(cfg, s)
    ensures Sound(cfg, FailAll(cfg, s))
  {
    hide Safe, Content, Tracks;
    SoundTree(cfg, s, s);
    FailAllSound(cfg, s);
  }

  // ---------------------------------------------------------------- the forward pass

  /** How many leading positions of request `j` are known to be right while request `i` onwards still has to write. */
  function Valid(cfg: Config, s: Sys, i: nat, j: nat, decode: bool): nat
    requires j < |s.running|
  {
    if j < i then s.running[j].kv.cursor else From(cfg, s.running[j], decode)
  }

  ghost predicate Partial(cfg: Config, s: Sys, mem: seq<seq<Cell>>, i: nat, decode: bool)
    requires ConfigOk(cfg)
  {
    && ContentTree(cfg, mem, s.tree)
    && (forall j {:trigger s.running[j]} :: 0 <= j < |s.running| ==> ContentAt(cfg, mem, s.running[j], Valid(cfg, s, i, j, decode)))
  }

  lemma FreshFrom(cfg: Config, r: Req, decode: bool)
    requires ConfigOk(cfg) && Fresh(cfg, r, decode)
    ensures From(cfg, r, decode) == r.kv.cursor <= |r.kv.table| * cfg.bs
    ensures r.shared * cfg.bs <= From(cfg, r, decode) <= |r.Seq()|
  {
    if decode { CeilBounds(r.kv.cursor, cfg.bs); }
  }

  lemma StartPartial(cfg: Config, s: Sys, start: nat, decode: bool)
    requires ConfigOk(cfg) && Content(cfg, s) && Preparing(cfg, s, start, start, decode)
    ensures Partial(cfg, s, s.mem, start, decode)
  {
    hide Safe, ContentAt, ContentTree, Fresh, Ready;
    forall j {:trigger s.running[j]} | 0 <= j < |s.running| ensures ContentAt(cfg, s.mem, s.running[j], Valid(cfg, s, start, j, decode)) {
      if j >= start {
        assert Fresh(cfg, s.running[j], decode);
        FreshFrom(cfg, s.running[j], decode);
      }
    }
  }

  /** Metadata moves no cell that is already right. */
  lemma PrepPartial(cfg: Config, s: Sys, mem: seq<seq<Cell>>, start: nat, i: nat, decode: bool)
    requires ConfigOk(cfg) && Preparing(cfg, s, start, i, decode) && i < |s.running| && PrepOf(cfg, s, i, decode).ok
    requires Partial(cfg, s, mem, start, decode)
    ensures Partial(cfg, WithPrep(cfg, s, i, decode), mem, start, decode)
  {
    hide Safe, ContentAt, ContentTree, PrepareMeta, Prepared, Ready, Fresh;
    var r := s.running[i];
    var u := WithPrep(cfg, s, i, decode);
    assert Fresh(cfg, r, decode);
    FreshFrom(cfg, r, decode);
    PrepareOne(cfg, s.pool, r, decode);
    ContentGrow(cfg, mem, r, u.running[i], From(cfg, r, decode));
  }

  lemma {:induction false} PrepareAllPartial(cfg: Config, s: Sys, mem: seq<seq<Cell>>, start: nat, i: nat, upto: nat, decode: bool)
    requires ConfigOk(cfg) && Preparing(cfg, s, start, i, decode) && i <= upto <= |s.running|
    requires Partial(cfg, s, mem, start, decode) && PrepareFrom(cfg, s, i, upto, decode).0
    ensures Partial(cfg, PrepareFrom(cfg, s, i, upto, decode).1, mem, start, decode)
    decreases upto - i
  {
    hide Preparing, Partial, PrepareMeta;
    if i < upto {
      PrepPartial(cfg, s, mem, start, i, decode);
      PrepareStep(cfg, s, start, i, decode);
      PrepareAllPartial(cfg, WithPrep(cfg, s, i, decode), mem, start, i + 1, upto, decode);
    }
  }

  /**
   No shared block is written: every position a prepared request writes lies past its adopted
   prefix, in a block with reference count one that neither the tree nor anyone else holds.
   */
  lemma WritesAreExclusive(cfg: Config, s: Sys, i: nat, decode: bool, p: nat)
    requires ConfigOk(cfg) && Safe(cfg, s) && i < |s.running| && Prepared(cfg, s.running[i])
    requires decode ==> s.running[i].shared * cfg.bs < |s.running[i].Seq()|
    requires From(cfg, s.running[i], decode) <= p < s.running[i].kv.cursor
    ensures var r := s.running[i]; var j := Blk(p, cfg.bs);
      && r.shared <= j < |r.kv.table|
      && var b := r.kv.table[j];
         b < |s.pool.ref| && s.pool.ref[b] == 1 && !Held(s.tree, b)
         && (forall k :: 0 <= k < |r.kv.table| && k != j ==> r.kv.table[k] != b)
         && (forall m, k :: 0 <= m < |s.running| && m != i && 0 <= k < |s.running[m].kv.table| ==> s.running[m].kv.table[k] != b)
  {
    var r := s.running[i];
    PosInTable(p, r.kv.cursor, cfg.bs);
    BlkFrom(p, r.shared, cfg.bs);
    SoleOwner(cfg, s.pool, s.tree, s.running, i, Blk(p, cfg.bs), s.lost);
  }

  lemma PreparedTable(cfg: Config, s: Sys, i: nat, decode: bool)
    requires ConfigOk(cfg) && Safe(cfg, s) && i < |s.running| && Prepared(cfg, s.running[i])
    ensures var r := s.running[i]; var w := From(cfg, r, decode);
      && w <= |r.Seq()| <= |r.kv.table| * cfg.bs
      && Sized'(s.mem, cfg.bs) && TableIn(s.mem, r.kv.table) && Private(r.kv.table, Blk(w, cfg.bs))
      && (forall j {:trigger r.kv.table[j]} :: Blk(w, cfg.bs) <= j < |r.kv.table| ==>
            !Held(s.tree, r.kv.table[j])
            && forall m, k :: 0 <= m < |s.running| && m != i && 0 <= k < |s.running[m].kv.table| ==> s.running[m].kv.table[k] != r.kv.table[j])
  {
    hide Core, Held;
    SafeCore(cfg, s);
    var r := s.running[i];
    var w := From(cfg, r, decode);
    CeilBounds(r.kv.cursor, cfg.bs);
    BlkFrom(w, r.shared, cfg.bs);
    forall j | 0 <= j < |r.kv.table| ensures r.kv.table[j] < |s.mem| { TableInPool(cfg, s.pool, s.tree, s.running, i, j, s.lost); }
    hide Blk;
    forall j {:trigger r.kv.table[j]} | Blk(w, cfg.bs) <= j < |r.kv.table|
      ensures !Held(s.tree, r.kv.table[j])
      ensures forall k :: 0 <= k < |r.kv.table| && k != j ==> r.kv.table[k] != r.kv.table[j]
      ensures forall m, k :: 0 <= m < |s.running| && m != i && 0 <= k < |s.running[m].kv.table| ==> s.running[m].kv.table[k] != r.kv.table[j]
    {
      SoleOwner(cfg, s.pool, s.tree, s.running, i, j, s.lost);
    }
  }

  /** Writing request `i`'s new tokens completes it and leaves all others and the tree alone. */
  lemma WritePartial(cfg: Config, s: Sys, mem: seq<seq<Cell>>, i: nat, decode: bool)
    requires ConfigOk(cfg) && Safe(cfg, s) && i < |s.running| && Prepared(cfg, s.running[i])
    requires Partial(cfg, s, mem, i, decode) && |mem| == |s.mem| && Sized'(mem, cfg.bs)
    ensures var r := s.running[i];
      var mem' := WriteToks(cfg, mem, r.kv.table, From(cfg, r, decode), NewToks(cfg, r, decode));
      Partial(cfg, s, mem', i + 1, decode) && |mem'| == |mem| && Sized'(mem', cfg.bs)
  {
    PreparedTable(cfg, s, i, decode);
    hide Safe, ContentTree, Correct, Blk, CellAt;
    var r := s.running[i];
    var w := From(cfg, r, decode);
    assert ContentAt(cfg, mem, r, Valid(cfg, s, i, i, decode));
    WriteContent(cfg, mem, r.kv.table, r.Seq(), w);
    var mem' := WriteToks(cfg, mem, r.kv.table, w, r.Seq()[w..]);
    assert r.Seq()[..r.kv.cursor] == r.Seq();
    assert ContentAt(cfg, mem', r, r.kv.cursor);
    hide ContentAt, WriteToks, Gather;
    WriteElsewhere(cfg, s, mem, mem', i, w);
    forall j {:trigger s.running[j]} | 0 <= j < |s.running| ensures ContentAt(cfg, mem', s.running[j], Valid(cfg, s, i + 1, j, decode)) {
      if j != i {
        assert ContentAt(cfg, mem, s.running[j], Valid(cfg, s, i, j, decode));
        ContentFrame(cfg, mem, mem', s.running[j], Valid(cfg, s, i, j, decode));
      }
    }
    ContentTreeFrame(cfg, mem, mem', s.tree);
  }

  lemma WriteElsewhere(cfg: Config, s: Sys, mem: seq<seq<Cell>>, mem': seq<seq<Cell>>, i: nat, w: nat)
    requires ConfigOk(cfg) && i < |s.running| && |mem'| == |mem|
    requires var r := s.running[i];
      && (forall b :: 0 <= b < |mem| && (forall j :: Blk(w, cfg.bs) <= j < |r.kv.table| ==> r.kv.table[j] != b) ==> mem'[b] == mem[b])
      && (forall j {:trigger r.kv.table[j]} :: Blk(w, cfg.bs) <= j < |r.kv.table| ==>
            !Held(s.tree, r.kv.table[j])
            && forall m, k :: 0 <= m < |s.running| && m != i && 0 <= k < |s.running[m].kv.table| ==> s.running[m].kv.table[k] != r.kv.table[j])
    ensures forall b :: 0 <= b < |mem| && Held(s.tree, b) ==> mem'[b] == mem[b]
    ensures forall m, k :: 0 <= m < |s.running| && m != i && 0 <= k < |s.running[m].kv.table| && s.running[m].kv.table[k] < |mem| ==>
      mem'[s.running[m].kv.table[k]] == mem[s.running[m].kv.table[k]]
  {
    hide Blk, Held;
  }

  lemma {:induction false} WriteBatchPartial(cfg: Config, s: Sys, mem: seq<seq<Cell>>, i: nat, decode: bool)
    requires ConfigOk(cfg) && Safe(cfg, s) && i <= |s.running| && |mem| == |s.mem| && Sized'(mem, cfg.bs)
    requires forall j {:trigger s.running[j]} :: i <= j < |s.running| ==> Prepared(cfg, s.running[j])
    requires Partial(cfg, s, mem, i, decode)
    ensures Partial(cfg, s, WriteBatch(cfg, mem, s.running[i..], decode), |s.running|, decode)
    decreases |s.running| - i
  {
    hide Safe, Partial, Prepared, WriteToks;
    if i < |s.running| {
      var r := s.running[i];
      assert Prepared(cfg, r);
      WritePartial(cfg, s, mem, i, decode);
      assert s.running[i..][1..] == s.running[i + 1..];
      WriteBatchPartial(cfg, s, WriteToks(cfg, mem, r.kv.table, From(cfg, r, decode), NewToks(cfg, r, decode)), i + 1, decode);
    }
  }

  // ---------------------------------------------------------------- sampling

  /** The sampled token is the isolated one. */
  lemma SampleOnTrack(cfg: Config, mem: seq<seq<Cell>>, r: Req)
    requires ConfigOk(cfg) && Prepared(cfg, r) && ContentAt(cfg, mem, r, r.kv.cursor)
    requires OnTrack(cfg, r) && r.phase != Finished
    ensures OnTrack(cfg, SampleReq(cfg, mem, r))
    ensures ContentAt(cfg, mem, SampleReq(cfg, mem, r), r.kv.cursor)
  {
    hide Correct;
    assert r.Seq()[..r.kv.cursor] == r.prompt + r.gen;
    assert SampleReq(cfg, mem, r).Seq()[..r.kv.cursor] == r.Seq()[..r.kv.cursor];
  }

  ghost predicate SampleInv(cfg: Config, s: Sys, i: nat)
    requires ConfigOk(cfg)
  {
    && Sound(cfg, s)
    && (forall j {:trigger s.running[j]} :: i <= j < |s.running| ==> Prepared(cfg, s.running[j]) && s.running[j].phase != Finished)
  }

  lemma SampleStep(cfg: Config, s: Sys, i: nat)
    requires ConfigOk(cfg) && SampleInv(cfg, s, i) && i < |s.running|
    ensures SampleInv(cfg, s.(running := s.running[i := SampleReq(cfg, s.mem, s.running[i])]), i + 1)
  {
    hide ContentTree, ContentAt, OnTrack, Left, Prepared;
    var r := s.running[i];
    assert ContentAt(cfg, s.mem, r, r.kv.cursor) && OnTrack(cfg, r) && Prepared(cfg, r);
    SampleOnTrack(cfg, s.mem, r);
    hide Gather;
  }

  lemma {:induction false} SampleFromSound(cfg: Config, s: Sys, i: nat)
    requires ConfigOk(cfg) && SampleInv(cfg, s, i)
    ensures Sound(cfg, SampleFrom(cfg, s, i))
    decreases |s.running| - i
  {
    if i < |s.running| {
      SampleStep(cfg, s, i);
      hide SampleInv, Sound;
      SampleFromSound(cfg, s.(running := s.running[i := SampleReq(cfg, s.mem, s.running[i])]), i + 1);
    }
  }

  // ---------------------------------------------------------------- finishing

  /** As written, a finished request records all its tokens; the cell of the last one was never computed. */
  function WrittenKey(cfg: Config, r: Req): seq<Chunk>
    requires ConfigOk(cfg)
  {
    Chunks(r.Seq(), cfg.bs)
  }

  lemma WrittenKeyCounts(cfg: Config, r: Req)
    requires ConfigOk(cfg) && Ready(cfg, r)
    ensures |WrittenKey(cfg, r)| <= |r.kv.table|
    ensures (r.kv.cursor + 1) % cfg.bs != 0 ==> WrittenKey(cfg, r) == Chunks(r.Seq()[..r.kv.cursor], cfg.bs)
    ensures (r.kv.cursor + 1) % cfg.bs == 0 ==>
      var k := |WrittenKey(cfg, r)|;
      k > 0 && k * cfg.bs == r.kv.cursor + 1 && Blk(r.kv.cursor, cfg.bs) == k - 1 && Off(r.kv.cursor, cfg.bs) == cfg.bs - 1
      && Chunks(r.Seq()[..r.kv.cursor], cfg.bs) == WrittenKey(cfg, r)[..k - 1]
  {
    var c, bs := r.kv.cursor, cfg.bs;
    RecordCounts(c, bs, r.shared);
    ChunksPrefix(r.Seq(), c, bs);
    hide Chunks, ChunkAt, CeilDiv;
    DivBounds(c + 1, bs);
    var k := (c + 1) / bs;
    if (c + 1) % bs == 0 {
      if k == 0 { assert false; }
      LastOfBlock(k - 1, bs, c);
    } else {
      NotLastOfBlock(c, k, bs);
    }
  }

  lemma LastOfBlock(j: nat, bs: nat, c: nat)
    requires bs > 0 && (j + 1) * bs == c + 1
    ensures c / bs == j && c % bs == bs - 1
  {
    assert (j + 1) * bs == j * bs + bs;
    DivIs(c, bs, j);
  }

  lemma NotLastOfBlock(c: nat, k: nat, bs: nat)
    requires bs > 0 && k * bs < c + 1 < k * bs + bs
    ensures c / bs == k
  {
    DivIs(c, bs, k);
  }

  lemma RecordNothing(cfg: Config, s: Sys, x: seq<Chunk>, bt: seq<nat>)
    requires ConfigOk(cfg) && Content(cfg, s) && Shape(s.tree) && |x| <= |bt| && Known(s.tree, x) == |x|
    ensures ContentTree(cfg, s.mem, Insert(s.tree, x, bt))
  {
    hide BlockHolds, Insert, Entry, Known;
    forall y, b | Entry(Insert(s.tree, x, bt), y, b) ensures BlockHolds(cfg, s.mem, y, b) { InsertEntry(s.tree, x, bt, y, b); }
  }

  /** Blocks completed below the cursor are right, whoever asks. */
  lemma NewBlockRight(cfg: Config, s: Sys, i: nat, x: seq<Chunk>, j: nat)
    requires ConfigOk(cfg) && Safe(cfg, s) && Content(cfg, s) && i < |s.running| && Ready(cfg, s.running[i])
    requires j < |Chunks(s.running[i].Seq()[..s.running[i].kv.cursor], cfg.bs)|
    requires j < |x| && x[..j + 1] == Chunks(s.running[i].Seq()[..s.running[i].kv.cursor], cfg.bs)[..j + 1]
    requires j < |s.running[i].kv.table|
    ensures BlockHolds(cfg, s.mem, x[..j + 1], s.running[i].kv.table[j])
  {
    hide Core, Correct, BlockHolds, Chunks;
    var r := s.running[i];
    SafeCore(cfg, s);
    TableInPool(cfg, s.pool, s.tree, s.running, i, j, s.lost);
    SafeSized(cfg, s);
    assert ContentAt(cfg, s.mem, r, r.kv.cursor);
    RecordedContent(cfg, s.mem, r, j);
  }

  lemma RecordCut(cfg: Config, s: Sys, i: nat, x: seq<Chunk>)
    requires ConfigOk(cfg) && Safe(cfg, s) && Content(cfg, s) && i < |s.running| && Ready(cfg, s.running[i]) && Shape(s.tree)
    requires x == Chunks(s.running[i].Seq()[..s.running[i].kv.cursor], cfg.bs) && |x| <= |s.running[i].kv.table|
    ensures ContentTree(cfg, s.mem, Insert(s.tree, x, s.running[i].kv.table))
  {
    hide Safe, BlockHolds, Insert, Entry, Known, Chunks, Shape, Ready;
    var bt := s.running[i].kv.table;
    forall y, b | Entry(Insert(s.tree, x, bt), y, b) ensures BlockHolds(cfg, s.mem, y, b) {
      InsertEntry(s.tree, x, bt, y, b);
      if !Entry(s.tree, y, b) {
        assert y == x[..|y| - 1 + 1];
        NewBlockRight(cfg, s, i, x, |y| - 1);
      }
    }
  }

  /**
   Recording finished request `r` into `t` adds nothing wrong: sharing is off, or only computed tokens
   are recorded, or the token too many completes no block, or every block of it is there already.
   */
  predicate Harmless(cfg: Config, t: Tree, r: Req)
    requires ConfigOk(cfg) && Shape(t)
  {
    !cfg.useRadix || cfg.cutAtCursor || (r.kv.cursor + 1) % cfg.bs != 0
    || Known(t, RecordKey(cfg, r)) == |RecordKey(cfg, r)|
  }

  /** Then only blocks whose cells are right for their tokens are recorded. */
  lemma InsertContent(cfg: Config, s: Sys, i: nat)
    requires ConfigOk(cfg) && cfg.useRadix && Safe(cfg, s) && Content(cfg, s) && i < |s.running| && Ready(cfg, s.running[i])
    requires Shape(s.tree) && Harmless(cfg, s.tree, s.running[i])
    ensures |RecordKey(cfg, s.running[i])| <= |s.running[i].kv.table|
    ensures ContentTree(cfg, s.mem, Insert(s.tree, RecordKey(cfg, s.running[i]), s.running[i].kv.table))
  {
    hide Safe, Insert, Chunks, Shape, Entry, Known, ContentTree;
    SafeShape(cfg, s, i);
    var r := s.running[i];
    var x := RecordKey(cfg, r);
    ReadyCursor(cfg, r);
    WrittenKeyCounts(cfg, r);
    if cfg.cutAtCursor || (r.kv.cursor + 1) % cfg.bs != 0 {
      RecordCut(cfg, s, i, x);
    } else {
      RecordNothing(cfg, s, x, r.kv.table);
    }
  }

  lemma ReadyCursor(cfg: Config, r: Req)
    requires ConfigOk(cfg) && Ready(cfg, r)
    ensures r.kv.cursor <= |r.Seq()|
  {}

  lemma SafeSized(cfg: Config, s: Sys)
    requires ConfigOk(cfg) && Safe(cfg, s)
    ensures Sized'(s.mem, cfg.bs) && |s.mem| == |s.pool.ref|
  {}

  lemma NormalLeft(cfg: Config, r: Req)
    requires OnTrack(cfg, r) && r.phase == Finished
    ensures Left(cfg, Ended(Cleared(r, Finished), true))
  {}

  lemma FinishAtSound(cfg: Config, s: Sys, i: nat)
    requires ConfigOk(cfg) && Shape(s.tree) && Safe(cfg, s) && Sound(cfg, s) && i < |s.running|
    requires Ready(cfg, s.running[i]) && s.running[i].phase == Finished
    requires Faults(cfg, s, i) || Harmless(cfg, s.tree, s.running[i])
    ensures Sound(cfg, FinishAt(cfg, s, i))
  {
    hide Core, Insert, Ref, Ready, Free, UnpinOf, OnTrack, Left, DropRunning, ContentTree, ContentAt, Entry, Faults, Harmless;
    SafeShape(cfg, s, i);
    var r := s.running[i];
    assert OnTrack(cfg, r);
    NormalLeft(cfg, r);
    var e := Ended(Cleared(r, Finished), true);
    var x := RecordKey(cfg, r);
    if !cfg.useRadix {
      DropSound(cfg, s, i);
      DropFrame(s, i);
      AddLeft(cfg, DropRunning(s, i), e);
    } else if Faults(cfg, s, i) {
      ShrinksSelf(s.tree);
      TreeSound(cfg, s, s.(fault := true));
    } else {
      FinishDefined(cfg, s, i);
      InsertContent(cfg, s, i);
      var mid := s.(tree := Insert(s.tree, x, r.kv.table), pool := Ref(s.pool, r.kv.table[Known(s.tree, x)..|x|]).1);
      DropSound(cfg, mid, i);
      DropFrame(mid, i);
      AddLeft(cfg, DropRunning(mid, i), e);
    }
  }

  /** Every request the finishing loop records is harmless at that moment. */
  ghost predicate FinishHarmless(cfg: Config, s: Sys, i: nat)
    requires ConfigOk(cfg) && Finishing(cfg, s, i) && !s.fault
    decreases |s.running| - i
  {
    hide Finishing, Inv, FinishAt, Faults, Ready, Harmless;
    FinishBounds(cfg, s, i);
    if i >= |s.running| then true
    else
      FinishStep(cfg, s, i);
      if s.running[i].phase != Finished then FinishHarmless(cfg, s, i + 1)
      else
        FinishingSafe(cfg, s, i);
        Faults(cfg, s, i) || (Harmless(cfg, s.tree, s.running[i]) && FinishHarmless(cfg, FinishAt(cfg, s, i), i))
  }

  lemma {:induction false} FinishFromSound(cfg: Config, s: Sys, i: nat)
    requires ConfigOk(cfg) && Finishing(cfg, s, i) && !s.fault && Sound(cfg, s) && FinishHarmless(cfg, s, i)
    ensures Sound(cfg, FinishFrom(cfg, s, i))
    decreases |s.running| - i
  {
    hide Finishing, Inv, FinishAt, Ready, Sound, Faults, Harmless;
    FinishBounds(cfg, s, i);
    if i < |s.running| {
      FinishStep(cfg, s, i);
      if s.running[i].phase != Finished {
        FinishFromSound(cfg, s, i + 1);
      } else {
        FinishingSafe(cfg, s, i);
        if Faults(cfg, s, i) {
          ShrinksSelf(s.tree);
          TreeSound(cfg, s, s.(fault := true));
        } else {
          FinishAtSound(cfg, s, i);
          FinishFromSound(cfg, FinishAt(cfg, s, i), i);
        }
      }
    }
  }

  /** Recording only what was computed is always harmless. */
  lemma {:induction false} FaithfulFinish(cfg: Config, s: Sys, i: nat)
    requires ConfigOk(cfg) && Faithful(cfg) && Finishing(cfg, s, i) && !s.fault
    ensures FinishHarmless(cfg, s, i)
    decreases |s.running| - i
  {
    hide Finishing, Inv, FinishAt, Ready, Faults, Known;
    FinishBounds(cfg, s, i);
    if i < |s.running| {
      FinishStep(cfg, s, i);
      if s.running[i].phase != Finished {
        FaithfulFinish(cfg, s, i + 1);
      } else {
        FinishingSafe(cfg, s, i);
        if !Faults(cfg, s, i) { FaithfulFinish(cfg, FinishAt(cfg, s, i), i); }
      }
    }
  }

  // ---------------------------------------------------------------- passes

  /** Metadata only touches the cache record of each request. */
  lemma {:induction false} PrepareSame(cfg: Config, s: Sys, i: nat, upto: nat, decode: bool)
    requires ConfigOk(cfg) && i <= upto <= |s.running|
    ensures var u := PrepareFrom(cfg, s, i, upto, decode).1;
      && |u.running| == |s.running| && u == s.(pool := u.pool, running := u.running)
      && forall j {:trigger u.running[j]} {:trigger s.running[j]} :: 0 <= j < |s.running| ==> u.running[j] == s.running[j].(kv := u.running[j].kv)
    decreases upto - i
  {
    hide PrepareMeta;
    if i < upto && PrepOf(cfg, s, i, decode).ok {
      PrepareSame(cfg, WithPrep(cfg, s, i, decode), i + 1, upto, decode);
    }
  }

  lemma PrepareTracks(cfg: Config, s: Sys, u: Sys)
    requires Tracks(cfg, s) && |u.running| == |s.running| && u == s.(pool := u.pool, mem := u.mem, running := u.running)
    requires forall j {:trigger u.running[j]} :: 0 <= j < |s.running| ==> u.running[j] == s.running[j].(kv := u.running[j].kv)
    ensures Tracks(cfg, u)
  {
    forall j {:trigger u.running[j]} | 0 <= j < |u.running| ensures OnTrack(cfg, u.running[j]) {
      assert OnTrack(cfg, s.running[j]);
    }
  }

  lemma PreparedPhase(cfg: Config, s: Sys, u: Sys, start: nat, decode: bool)
    requires ConfigOk(cfg) && Preparing(cfg, s, start, start, decode) && |u.running| == |s.running|
    requires forall j {:trigger u.running[j]} :: 0 <= j < |s.running| ==> u.running[j] == s.running[j].(kv := u.running[j].kv)
    ensures forall j {:trigger u.running[j]} :: start <= j < |u.running| ==> u.running[j].phase != Finished
  {
    hide Safe, Ready;
    forall j {:trigger u.running[j]} | start <= j < |u.running| ensures u.running[j].phase != Finished {
      assert Fresh(cfg, s.running[j], decode);
    }
  }

  lemma PreparingDone(cfg: Config, s: Sys, start: nat, decode: bool)
    requires ConfigOk(cfg) && Preparing(cfg, s, start, |s.running|, decode)
    ensures Safe(cfg, s) && forall j {:trigger s.running[j]} :: start <= j < |s.running| ==> Prepared(cfg, s.running[j])
  {}

  lemma PartialContent(cfg: Config, s: Sys, mem: seq<seq<Cell>>, decode: bool)
    requires ConfigOk(cfg) && Partial(cfg, s, mem, |s.running|, decode)
    ensures Content(cfg, s.(mem := mem))
  {
    hide ContentAt, ContentTree;
  }

  lemma ForwardedSound(cfg: Config, s: Sys)
    requires ConfigOk(cfg) && Inv(cfg, s) && Funded(cfg, s) && !s.pc.Idle? && Sound(cfg, s)
    requires 0 <= BatchStart(s) <= |s.running| && PrepareFrom(cfg, s, BatchStart(s), |s.running|, s.pc.Decoding?).0
    ensures Sound(cfg, Forwarded(cfg, s))
  {
    hide Inv, Funded, Preparing, Partial, Safe, Prepared, Content, Tracks, WriteBatch, SampleFrom, PrepareFrom;
    var i := BatchStart(s);
    var decode := s.pc.Decoding?;
    BatchFresh(cfg, s);
    StartPartial(cfg, s, i, decode);
    PrepareAll(cfg, s, i, i, |s.running|, decode);
    PrepareAllPartial(cfg, s, s.mem, i, i, |s.running|, decode);
    PrepareSame(cfg, s, i, |s.running|, decode);
    var u := PrepareFrom(cfg, s, i, |s.running|, decode).1;
    PreparingDone(cfg, u, i, decode);
    SafeSized(cfg, u);
    WriteBatchPartial(cfg, u, u.mem, i, decode);
    var mem := WriteBatch(cfg, u.mem, u.running[i..], decode);
    var v := u.(mem := mem);
    PartialContent(cfg, u, mem, decode);
    PrepareTracks(cfg, s, v);
    PreparedPhase(cfg, s, v, i, decode);
    SampleFromSound(cfg, v, i);
    var w := SampleFrom(cfg, v, i);
    ShrinksSelf(w.tree);
    TreeSound(cfg, w, w.(pc := Idle));
  }

  /** What survives when every request is dropped. */
  ghost predicate TreeAndTracks(cfg: Config, s: Sys)
    requires ConfigOk(cfg)
  {
    ContentTree(cfg, s.mem, s.tree) && Tracks(cfg, s)
  }

  lemma ReleaseTracks(cfg: Config, s: Sys, i: nat)
    requires ConfigOk(cfg) && TreeAndTracks(cfg, s) && i < |s.running|
    requires s.running[i].pin.Some? ==> s.running[i].pin.value in s.tree.nodes
    ensures TreeAndTracks(cfg, ReleaseRunning(s, i))
  {
    hide OnTrack, UnpinOf, Left, Entry;
    var r := s.running[i];
    assert OnTrack(cfg, r);
    UnpinShrinks(s.tree, r);
    LeftEarly(cfg, r, Cleared(r, Finished));
    var u := ReleaseRunning(s, i);
    ContentTreeSub(cfg, s.mem, s.tree, u.tree);
    forall j {:trigger u.running[j]} | 0 <= j < |u.running| ensures OnTrack(cfg, u.running[j]) {
      var k := if j < i then j else j + 1;
      assert u.running[j] == s.running[k];
    }
  }

  lemma ReleaseWaitingTracks(cfg: Config, s: Sys, i: nat)
    requires ConfigOk(cfg) && TreeAndTracks(cfg, s) && i < |s.waiting|
    ensures TreeAndTracks(cfg, ReleaseWaiting(s, i))
  {
    hide OnTrack, Left, ContentTree;
    var r := s.waiting[i];
    assert OnTrack(cfg, r);
    LeftEarly(cfg, r, r.(phase := Finished));
  }

  lemma {:induction false} FailAllSound(cfg: Config, s: Sys)
    requires ConfigOk(cfg) && Safe(cfg, s) && TreeAndTracks(cfg, s)
    ensures Sound(cfg, FailAll(cfg, s))
    decreases |s.running|, |s.waiting|
  {
    if s.running == [] && s.waiting == [] {
      hide Safe, Left;
      FailEmpty(cfg, s);
    } else {
      hide Safe, Inv, TreeAndTracks, ReleaseRunning, ReleaseWaiting, FailAll;
      if s.running != [] {
        FailRunning(cfg, s);
        ReleaseTracks(cfg, s, 0);
        FailAllSound(cfg, ReleaseRunning(s, 0));
      } else {
        FailWaiting(cfg, s);
        ReleaseWaitingTracks(cfg, s, 0);
        FailAllSound(cfg, ReleaseWaiting(s, 0));
      }
    }
  }

  /** Every request a pass records is harmless. */
  ghost predicate PassHarmless(cfg: Config, s: Sys)
    requires ConfigOk(cfg) && Inv(cfg, s) && Funded(cfg, s) && !s.pc.Idle? && !s.fault
  {
    hide Inv, Funded, Finishing, Safe, PrepareFrom, Forwarded, FinishHarmless;
    BatchFresh(cfg, s);
    if PrepareFrom(cfg, s, BatchStart(s), |s.running|, s.pc.Decoding?).0 && s.running != [] then
      ForwardedFinishing(cfg, s);
      FinishHarmless(cfg, Forwarded(cfg, s), 0)
    else true
  }

  lemma ForwardSound(cfg: Config, s: Sys)
    requires ConfigOk(cfg) && Inv(cfg, s) && Funded(cfg, s) && !s.pc.Idle? && !s.fault && Sound(cfg, s)
    requires PassHarmless(cfg, s)
    ensures Sound(cfg, Forward(cfg, s))
  {
    hide Inv, Funded, Finishing, Safe, PrepareFrom, Forwarded, Content, Tracks, FinishHarmless;
    BatchFresh(cfg, s);
    var i := BatchStart(s);
    PrepareAll(cfg, s, i, i, |s.running|, s.pc.Decoding?);
    var (ok, prepared) := PrepareFrom(cfg, s, i, |s.running|, s.pc.Decoding?);
    if !ok || s.running == [] {
      PrepareSame(cfg, s, i, |s.running|, s.pc.Decoding?);
      PrepareTracks(cfg, s, prepared);
      SoundTree(cfg, s, prepared);
      FailAllSound(cfg, prepared);
    } else {
      ForwardedFinishing(cfg, s);
      ForwardedSound(cfg, s);
      FinishFromSound(cfg, Forwarded(cfg, s), 0);
      ShrinksSelf(s.tree);
      TreeSound(cfg, s, s.(fault := true));
    }
  }

  lemma FaithfulPass(cfg: Config, s: Sys)
    requires ConfigOk(cfg) && Faithful(cfg) && Inv(cfg, s) && Funded(cfg, s) && !s.pc.Idle? && !s.fault
    ensures PassHarmless(cfg, s)
  {
    hide Inv, Funded, Finishing, PrepareFrom, Forwarded, FinishHarmless;
    BatchFresh(cfg, s);
    if PrepareFrom(cfg, s, BatchStart(s), |s.running|, s.pc.Decoding?).0 && s.running != [] {
      ForwardedFinishing(cfg, s);
      FaithfulFinish(cfg, Forwarded(cfg, s), 0);
    }
  }

  lemma SoundTree(cfg: Config, s: Sys, u: Sys)
    requires ConfigOk(cfg) && Content(cfg, s) && u.mem == s.mem && u.tree == s.tree && Tracks(cfg, u)
    ensures TreeAndTracks(cfg, u)
  {
    hide Tracks, ContentTree;
  }

  // ---------------------------------------------------------------- crashes

  lemma {:induction false} JunkElsewhere(mem: seq<seq<Cell>>, table: seq<nat>, w: nat, n: nat, bs: nat, junk: nat -> Cell, b: nat)
    requires bs > 0 && b < |mem| && forall j :: Blk(w, bs) <= j < |table| ==> table[j] != b
    ensures JunkToks(mem, table, w, n, bs, junk)[b] == mem[b]
    decreases n - w
  {
    if w < n {
      BlkMono(w, w + 1, bs);
      hide Blk;
      JunkElsewhere(SetCell(mem, table, w, bs, junk(w)), table, w + 1, n, bs, junk, b);
    }
  }

  /** The blocks a pass would write from block index `Blk(From)` on are not the tree's. */
  ghost predicate TailFree(cfg: Config, t: Tree, rs: seq<Req>, decode: bool)
    requires ConfigOk(cfg)
  {
    forall i, j {:trigger rs[i].kv.table[j]} :: 0 <= i < |rs| && Blk(From(cfg, rs[i], decode), cfg.bs) <= j < |rs[i].kv.table| ==>
      !Held(t, rs[i].kv.table[j])
  }

  lemma {:induction false} JunkBatchHeld(cfg: Config, mem: seq<seq<Cell>>, t: Tree, rs: seq<Req>, decode: bool, junk: (nat, nat) -> Cell, b: nat)
    requires ConfigOk(cfg) && TailFree(cfg, t, rs, decode) && Held(t, b) && b < |mem|
    ensures JunkBatch(cfg, mem, rs, decode, junk)[b] == mem[b]
    decreases |rs|
  {
    hide Held, Blk, From;
    if rs != [] {
      var r := rs[0];
      var f := (p: nat) => junk(r.id, p);
      forall j | Blk(From(cfg, r, decode), cfg.bs) <= j < |r.kv.table| ensures r.kv.table[j] != b {
        assert !Held(t, rs[0].kv.table[j]);
      }
      JunkElsewhere(mem, r.kv.table, From(cfg, r, decode), r.kv.cursor, cfg.bs, f, b);
      forall i, j {:trigger rs[1..][i].kv.table[j]} | 0 <= i < |rs[1..]| && Blk(From(cfg, rs[1..][i], decode), cfg.bs) <= j < |rs[1..][i].kv.table|
        ensures !Held(t, rs[1..][i].kv.table[j])
      {
        assert rs[1..][i] == rs[i + 1];
        assert !Held(t, rs[i + 1].kv.table[j]);
      }
      JunkBatchHeld(cfg, JunkToks(mem, r.kv.table, From(cfg, r, decode), r.kv.cursor, cfg.bs, f), t, rs[1..], decode, junk, b);
    }
  }

  lemma FreshShared(cfg: Config, s: Sys, u: Sys, start: nat, decode: bool)
    requires ConfigOk(cfg) && Preparing(cfg, s, start, start, decode) && |u.running| == |s.running|
    requires forall j {:trigger u.running[j]} :: 0 <= j < |s.running| ==> u.running[j] == s.running[j].(kv := u.running[j].kv)
    ensures forall j {:trigger u.running[j]} :: start <= j < |u.running| ==> u.running[j].shared * cfg.bs <= From(cfg, u.running[j], decode)
  {
    hide Safe;
    forall j {:trigger u.running[j]} | start <= j < |u.running| ensures u.running[j].shared * cfg.bs <= From(cfg, u.running[j], decode) {
      assert Fresh(cfg, s.running[j], decode);
      FreshFrom(cfg, s.running[j], decode);
    }
  }

  lemma BatchTailFree(cfg: Config, u: Sys, start: nat, decode: bool)
    requires ConfigOk(cfg) && Safe(cfg, u) && start <= |u.running|
    requires forall j {:trigger u.running[j]} :: start <= j < |u.running| ==> u.running[j].shared * cfg.bs <= From(cfg, u.running[j], decode)
    ensures TailFree(cfg, u.tree, u.running[start..], decode)
  {
    SafeCore(cfg, u);
    hide Safe, Core, Held, From;
    var rs := u.running[start..];
    forall i, j {:trigger rs[i].kv.table[j]} | 0 <= i < |rs| && Blk(From(cfg, rs[i], decode), cfg.bs) <= j < |rs[i].kv.table|
      ensures !Held(u.tree, rs[i].kv.table[j])
    {
      var r := u.running[start + i];
      assert rs[i] == r;
      BlkFrom(From(cfg, r, decode), r.shared, cfg.bs);
      SoleOwner(cfg, u.pool, u.tree, u.running, start + i, j, u.lost);
    }
  }

  lemma CrashSound(cfg: Config, s: Sys, k: nat, junk: (nat, nat) -> Cell)
    requires ConfigOk(cfg) && Inv(cfg, s) && Funded(cfg, s) && !s.pc.Idle? && Sound(cfg, s)
    ensures Sound(cfg, Crash(cfg, s, k, junk))
  {
    hide Inv, Funded, Safe, PrepareFrom, JunkBatch, Tracks, ContentTree, Preparing, TailFree;
    BatchFresh(cfg, s);
    var i := BatchStart(s);
    var decode := s.pc.Decoding?;
    var upto := if i + k <= |s.running| then i + k else |s.running|;
    PrepareAll(cfg, s, i, i, upto, decode);
    PrepareSame(cfg, s, i, upto, decode);
    var u := PrepareFrom(cfg, s, i, upto, decode).1;
    var mem := JunkBatch(cfg, u.mem, u.running[i..], decode, junk);
    PreparingSafe(cfg, u, i, upto, decode, mem);
    PrepareTracks(cfg, s, u.(mem := mem));
    FreshShared(cfg, s, u, i, decode);
    BatchTailFree(cfg, u, i, decode);
    forall b: nat | 0 <= b < |u.mem| && Held(u.tree, b) ensures mem[b] == u.mem[b] {
      JunkBatchHeld(cfg, u.mem, u.tree, u.running[i..], decode, junk, b);
    }
    ContentTreeFrame(cfg, u.mem, mem, u.tree);
    FailAllSound(cfg, u.(mem := mem));
  }
}
