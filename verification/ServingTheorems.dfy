/** The results about whole runs: any interleaving of submits, aborts, ticks, passes and crashes. */
module ServingTheorems {
  import opened Basics
  import opened Tokens
  import opened PoolSpec
  import opened CacheSpec
  import opened RadixSpec
  import opened RadixUpdate
  import opened RadixInsertEvict
  import opened ServingState
  import opened ServingCore
  import opened Serving
  import opened ServingAdmit
  import opened ServingForward
  import opened ServingContent
  import opened ServingSound
  import opened ServingRun

  // ---------------------------------------------------------------- transparency

  lemma NewSysSound(cfg: Config, n: nat)
    requires ConfigOk(cfg)
    ensures Sound(cfg, NewSys(cfg, n))
  {
    EmptyHoldsNothing();
  }

  lemma SubmitSound(cfg: Config, s: Sys, r: Req)
    requires ConfigOk(cfg) && Sound(cfg, s) && r.phase == Waiting && r.gen == []
    ensures Sound(cfg, s.(waiting := s.waiting + [r], nextId := s.nextId + 1))
  {
    assert OnTrack(cfg, r);
    hide OnTrack, Left, Content;
    ContentSame(cfg, s, s.(waiting := s.waiting + [r], nextId := s.nextId + 1));
  }

  lemma AbortSound(cfg: Config, s: Sys, ids: set<nat>)
    requires ConfigOk(cfg) && Sound(cfg, s)
    ensures Sound(cfg, s.(aborted := ids))
  {
    hide Entry;
    ShrinksSelf(s.tree);
    TreeSound(cfg, s, s.(aborted := ids));
  }

  /** A step that records nothing wrong. */
  ghost predicate StepHarmless(cfg: Config, s: Sys, a: Action)
    requires ConfigOk(cfg) && Inv(cfg, s) && (s.fault || Funded(cfg, s))
  {
    a.Pass? && !s.fault && !s.pc.Idle? ==> PassHarmless(cfg, s)
  }

  /** Every request that finishes in the run is harmless when it is recorded. */
  ghost predicate RunHarmless(cfg: Config, n: nat, acts: seq<Action>)
    requires ConfigOk(cfg)
    decreases |acts|
  {
    hide Inv, Funded, StepHarmless;
    acts == [] ||
    (RunHarmless(cfg, n, acts[..|acts| - 1]) && StepHarmless(cfg, Run(cfg, n, acts[..|acts| - 1]), acts[|acts| - 1]))
  }

  /** Without prefix sharing, or when only computed tokens are recorded, every run is harmless. */
  lemma {:induction false} FaithfulRun(cfg: Config, n: nat, acts: seq<Action>)
    requires ConfigOk(cfg) && Faithful(cfg)
    ensures RunHarmless(cfg, n, acts)
    decreases |acts|
  {
    hide Inv, Funded, PassHarmless;
    if acts != [] {
      var s := Run(cfg, n, acts[..|acts| - 1]);
      FaithfulRun(cfg, n, acts[..|acts| - 1]);
      if !s.fault && !s.pc.Idle? { FaithfulPass(cfg, s); }
    }
  }

  lemma StepSound(cfg: Config, s: Sys, a: Action)
    requires ConfigOk(cfg) && Inv(cfg, s) && (s.fault || Funded(cfg, s)) && Sound(cfg, s) && StepHarmless(cfg, s, a)
    ensures Sound(cfg, Step(cfg, s, a))
  {
    hide Inv, Funded, Sound, Tick, Forward, Crash, PassHarmless;
    if !s.fault {
      match a
      case Submit(prompt, maxTokens, eos) =>
        if prompt != [] { SubmitSound(cfg, s, NewReq(s, prompt, maxTokens, eos)); }
      case Abort(id) =>
        AbortSound(cfg, s, s.aborted + {id});
      case Start(order) =>
        if s.pc.Idle? { TickSound(cfg, s, order); }
      case Pass =>
        if !s.pc.Idle? { ForwardSound(cfg, s); }
      case Fail(k, junk) =>
        if !s.pc.Idle? { CrashSound(cfg, s, k, junk); }
    }
  }

  lemma {:induction false} RunSound(cfg: Config, n: nat, acts: seq<Action>)
    requires ConfigOk(cfg) && RunHarmless(cfg, n, acts)
    ensures Sound(cfg, Run(cfg, n, acts))
    decreases |acts|
  {
    hide Inv, Funded, Sound, Step, StepHarmless;
    if acts == [] {
      NewSysSound(cfg, n);
    } else {
      RunSound(cfg, n, acts[..|acts| - 1]);
      StepSound(cfg, Run(cfg, n, acts[..|acts| - 1]), acts[|acts| - 1]);
    }
  }

  /**
   Scheduling transparency. In every reachable state each live request has generated a prefix of
   what it would generate alone, and a request that finished normally has generated exactly
   that. Requests that were aborted or failed hold a prefix.
   */
  lemma Transparency(cfg: Config, n: nat, acts: seq<Action>)
    requires ConfigOk(cfg) && RunHarmless(cfg, n, acts)
    ensures var s := Run(cfg, n, acts);
      && (forall i {:trigger s.waiting[i]} :: 0 <= i < |s.waiting| ==> s.waiting[i].gen <= Answer(cfg, s.waiting[i]))
      && (forall i {:trigger s.running[i]} :: 0 <= i < |s.running| ==> s.running[i].gen <= Answer(cfg, s.running[i]))
      && (forall i {:trigger s.done[i]} :: 0 <= i < |s.done| ==> Left(cfg, s.done[i]))
  {
    RunSound(cfg, n, acts);
    TrackedPrefixes(cfg, Run(cfg, n, acts));
  }

  lemma TrackedPrefixes(cfg: Config, s: Sys)
    requires ConfigOk(cfg) && Sound(cfg, s)
    ensures forall i {:trigger s.waiting[i]} :: 0 <= i < |s.waiting| ==> s.waiting[i].gen <= Answer(cfg, s.waiting[i])
    ensures forall i {:trigger s.running[i]} :: 0 <= i < |s.running| ==> s.running[i].gen <= Answer(cfg, s.running[i])
    ensures forall i {:trigger s.done[i]} :: 0 <= i < |s.done| ==> Left(cfg, s.done[i])
  {
    hide Content, Isolated, Answer, OnTrack, Left;
    forall i {:trigger s.waiting[i]} | 0 <= i < |s.waiting| ensures s.waiting[i].gen <= Answer(cfg, s.waiting[i]) {
      TrackPrefix(cfg, s.waiting[i]);
    }
    forall i {:trigger s.running[i]} | 0 <= i < |s.running| ensures s.running[i].gen <= Answer(cfg, s.running[i]) {
      TrackPrefix(cfg, s.running[i]);
    }
  }

  lemma TrackPrefix(cfg: Config, r: Req)
    requires OnTrack(cfg, r)
    ensures r.gen <= Answer(cfg, r)
  {
    IsolatedExtends(cfg, r.prompt, r.gen, r.maxTokens, r.eos);
  }

  /**
   The cache is right in every reachable state: each position a running request relies on holds
   the cell of exactly the tokens up to it, and each block the tree records holds the cells of
   the tokens on its path.
   */
  lemma CacheContent(cfg: Config, n: nat, acts: seq<Action>)
    requires ConfigOk(cfg) && RunHarmless(cfg, n, acts)
    ensures var s := Run(cfg, n, acts);
      && (forall i, p {:trigger CellAt(s.mem, s.running[i].kv.table, p, cfg.bs)} ::
            0 <= i < |s.running| && 0 <= p < s.running[i].kv.cursor ==>
              p < |s.running[i].Seq()|
              && CellAt(s.mem, s.running[i].kv.table, p, cfg.bs) == Correct(cfg, s.running[i].Seq())[p])
      && (forall x, b :: Entry(s.tree, x, b) ==> BlockHolds(cfg, s.mem, x, b))
  {
    RunSound(cfg, n, acts);
    var s := Run(cfg, n, acts);
    hide Run, Tracks, Inv, Funded, Correct, CellAt, BlockHolds, Entry;
    forall i, p {:trigger CellAt(s.mem, s.running[i].kv.table, p, cfg.bs)} | 0 <= i < |s.running| && 0 <= p < s.running[i].kv.cursor
      ensures p < |s.running[i].Seq()| && CellAt(s.mem, s.running[i].kv.table, p, cfg.bs) == Correct(cfg, s.running[i].Seq())[p]
    {
      var r := s.running[i];
      assert ContentAt(cfg, s.mem, r, r.kv.cursor);
      CorrectPrefix(cfg, r.Seq(), r.kv.cursor);
      assert Gather(s.mem, r.kv.table, r.kv.cursor, cfg.bs)[p] == Correct(cfg, r.Seq())[..r.kv.cursor][p];
    }
  }

  // ---------------------------------------------------------------- ownership

  function Below(n: nat): (r: set<nat>)
    ensures forall b: nat :: b in r <==> b < n
    ensures |r| == n
  {
    if n == 0 then {} else Below(n - 1) + {n - 1}
  }

  /** Allocated blocks and free blocks together make up the pool. */
  lemma FreeCount(p: Pool)
    requires PoolOk(p)
    ensures |set b: nat | b in Below(|p.ref|) && p.ref[b] > 0| == |p.ref| - |p.free|
  {
    var used := set b: nat | b in Below(|p.ref|) && p.ref[b] > 0;
    var free := set i | 0 <= i < |p.free| :: p.free[i];
    DistinctSize(p.free);
    forall b: nat ensures b in Below(|p.ref|) <==> b in used || b in free {
      if b < |p.ref| && p.ref[b] == 0 {
        var i :| 0 <= i < |p.free| && p.free[i] == b;
      }
    }
    assert Below(|p.ref|) == used + free;
    assert used !! free;
  }

  lemma {:induction false} DistinctSize(s: seq<nat>)
    requires forall i, j :: 0 <= i < j < |s| ==> s[i] != s[j]
    ensures |set i | 0 <= i < |s| :: s[i]| == |s|
  {
    if s != [] {
      var t := s[..|s| - 1];
      DistinctSize(t);
      assert (set i | 0 <= i < |s| :: s[i]) == (set i | 0 <= i < |t| :: t[i]) + {s[|s| - 1]};
    }
  }

  /**
   Ownership conservation: in every reachable state a block's reference count is the number of
   its occurrences in running requests' tables, plus one if the tree records it, plus the references
   that were lost; the tree records no block twice; waiting requests hold nothing; and when nothing
   runs, exactly the blocks recorded or lost are allocated.
   */
  lemma Ownership(cfg: Config, n: nat, acts: seq<Action>)
    requires ConfigOk(cfg)
    ensures var s := Run(cfg, n, acts);
      && (forall b: nat :: b < |s.pool.ref| ==>
            s.pool.ref[b] == Occ(s.running, b) + (if Held(s.tree, b) then 1 else 0) + Count(s.lost, b))
      && Injective(s.tree)
      && (forall i {:trigger s.waiting[i]} :: 0 <= i < |s.waiting| ==> s.waiting[i].kv.table == [] && s.waiting[i].pin.None?)
      && (s.running == [] ==>
            (forall b: nat :: b < |s.pool.ref| ==> (s.pool.ref[b] > 0 <==> Held(s.tree, b) || b in s.lost))
            && |set b: nat | b in Below(|s.pool.ref|) && s.pool.ref[b] > 0| == |s.pool.ref| - |s.pool.free|)
  {
    var s := Run(cfg, n, acts);
    hide Run, Inv, Funded, Occ, Held, Below, Injective;
    OwnershipAt(cfg, s);
  }

  lemma OwnershipAt(cfg: Config, s: Sys)
    requires ConfigOk(cfg) && Inv(cfg, s)
    ensures forall b: nat :: b < |s.pool.ref| ==>
      s.pool.ref[b] == Occ(s.running, b) + (if Held(s.tree, b) then 1 else 0) + Count(s.lost, b)
    ensures Injective(s.tree)
    ensures forall i {:trigger s.waiting[i]} :: 0 <= i < |s.waiting| ==> s.waiting[i].kv.table == [] && s.waiting[i].pin.None?
    ensures s.running == [] ==>
      (forall b: nat :: b < |s.pool.ref| ==> (s.pool.ref[b] > 0 <==> Held(s.tree, b) || b in s.lost))
      && |set b: nat | b in Below(|s.pool.ref|) && s.pool.ref[b] > 0| == |s.pool.ref| - |s.pool.free|
  {
    hide Phases, TreeOk, Adopted, Exclusive, InOrder, Unshared, Held, Injective, Below;
    FreeCount(s.pool);
    forall b: nat | b < |s.pool.ref|
      ensures s.pool.ref[b] == Occ(s.running, b) + (if Held(s.tree, b) then 1 else 0) + Count(s.lost, b)
      ensures Count(s.lost, b) > 0 <==> b in s.lost
    {
      assert Owners(s.tree, s.running, b) + Count(s.lost, b) == if b < |s.pool.ref| then s.pool.ref[b] else 0;
      CountZero(s.lost, b);
    }
  }

  /** Pin accounting: a node's lock is the number of running requests pinned at or below it, plus one for the root. */
  lemma PinAccounting(cfg: Config, n: nat, acts: seq<Action>, m: int)
    requires ConfigOk(cfg) && m in Run(cfg, n, acts).tree.nodes
    ensures var s := Run(cfg, n, acts);
      && HandlesIn(s.tree, Handles(s.running))
      && s.tree.nodes[m].lock == Pins(s.tree, Handles(s.running), m) + (if m == ROOT then 1 else 0)
      && (forall c :: c in s.tree.nodes && c != ROOT && Anc(s.tree, m, c) ==> s.tree.nodes[c].lock <= s.tree.nodes[m].lock)
  {
    var s := Run(cfg, n, acts);
    assert Handles(s.running) + [] == Handles(s.running);
    hide Run, Phases, Funded, InOrder, Shape, LruOk, Injective, Owned, Adopted, Exclusive;
    forall c | c in s.tree.nodes && c != ROOT && Anc(s.tree, m, c) ensures s.tree.nodes[c].lock <= s.tree.nodes[m].lock {
      LockMonotone(s.tree, Handles(s.running), m, c);
    }
  }

  // ---------------------------------------------------------------- order and budget

  /** First come, first served: running requests, then waiting ones, are in arrival order and each appears once. */
  lemma FirstCome(cfg: Config, n: nat, acts: seq<Action>)
    requires ConfigOk(cfg)
    ensures InOrder(Run(cfg, n, acts).running + Run(cfg, n, acts).waiting, Run(cfg, n, acts).nextId)
  {
    hide Run, Phases, Funded, Core, Sized, InOrder;
  }

  /** So in no reachable state a later arrival runs while an earlier one waits. */
  lemma NoOvertaking(cfg: Config, n: nat, acts: seq<Action>, i: nat, j: nat)
    requires ConfigOk(cfg)
    requires var s := Run(cfg, n, acts); i < |s.running| && j < |s.waiting|
    ensures var s := Run(cfg, n, acts); s.running[i].id < s.waiting[j].id
  {
    hide Run, Inv, Funded, InOrder;
    FirstCome(cfg, n, acts);
    var s := Run(cfg, n, acts);
    OrderBetween(s.running, s.waiting, s.nextId, i, j);
  }

  lemma OrderBetween(a: seq<Req>, w: seq<Req>, next: nat, i: nat, j: nat)
    requires InOrder(a + w, next) && i < |a| && j < |w|
    ensures a[i].id < w[j].id
  {
    assert (a + w)[i] == a[i] && (a + w)[|a| + j] == w[j];
  }

  /** Request `r` has no room for what the pass wants to add. */
  predicate AtLimit(cfg: Config, r: Req, decode: bool) {
    if decode then cfg.maxLen <= 1 || r.kv.cursor >= cfg.maxLen else |r.Seq()| - r.kv.cursor >= cfg.maxLen
  }

  /** A prefill batch needs more blocks than are free. */
  ghost predicate Underfunded(cfg: Config, s: Sys)
    requires ConfigOk(cfg)
  {
    s.pc.Prefilling? && s.pc.k <= |s.running| && Need(cfg, s.running[|s.running| - s.pc.k..]) > |s.pool.free|
  }

  /** When the metadata of a funded batch fails, some request of the batch is at the length limit. */
  lemma {:induction false} FailsOnLengthOnly(cfg: Config, s: Sys, start: nat, i: nat, decode: bool) returns (j: nat)
    requires ConfigOk(cfg) && Preparing(cfg, s, start, i, decode)
    requires !PrepareFrom(cfg, s, i, |s.running|, decode).0 && (decode || Need(cfg, s.running[i..]) <= |s.pool.free|)
    ensures i <= j < |s.running| && AtLimit(cfg, s.running[j], decode)
    decreases |s.running| - i
  {
    InBatch(cfg, s, start, i, decode);
    hide Preparing, Need;
    if PrepOf(cfg, s, i, decode).ok {
      PrepareStep(cfg, s, start, i, decode);
      if !decode { TakesNeed(cfg, s, start, i); }
      j := FailsOnLengthOnly(cfg, WithPrep(cfg, s, i, decode), start, i + 1, decode);
    } else {
      NeverShort(cfg, s, start, i, decode);
      j := i;
    }
  }

  lemma InBatch(cfg: Config, s: Sys, start: nat, i: nat, decode: bool)
    requires ConfigOk(cfg) && Preparing(cfg, s, start, i, decode) && !PrepareFrom(cfg, s, i, |s.running|, decode).0
    ensures i < |s.running|
  {}

  /** Without enough blocks the metadata of a prefill batch fails. */
  lemma {:induction false} UnderfundedFails(cfg: Config, s: Sys, start: nat, i: nat)
    requires ConfigOk(cfg) && Preparing(cfg, s, start, i, false) && i <= |s.running|
    requires Need(cfg, s.running[i..]) > |s.pool.free|
    ensures !PrepareFrom(cfg, s, i, |s.running|, false).0
    decreases |s.running| - i
  {
    hide Preparing;
    if i < |s.running| {
      hide Need;
      if PrepOf(cfg, s, i, false).ok {
        PrepareStep(cfg, s, start, i, false);
        TakesNeed(cfg, s, start, i);
        UnderfundedFails(cfg, WithPrep(cfg, s, i, false), start, i + 1);
      }
    }
  }

  /**
   The batch of any reachable state: its metadata fails if and only if some request is at the length
   limit or the batch is short, and it is short only after references have been lost.
   */
  lemma BatchesAreFunded(cfg: Config, n: nat, acts: seq<Action>)
    requires ConfigOk(cfg)
    requires var s := Run(cfg, n, acts); !s.fault && !s.pc.Idle?
    ensures var s := Run(cfg, n, acts); var i := BatchStart(s); var decode := s.pc.Decoding?;
      && 0 <= i <= |s.running|
      && (!PrepareFrom(cfg, s, i, |s.running|, decode).0 <==> Underfunded(cfg, s) || exists j :: i <= j < |s.running| && AtLimit(cfg, s.running[j], decode))
      && (Underfunded(cfg, s) ==> s.lost != [])
  {
    var s := Run(cfg, n, acts);
    var decode := s.pc.Decoding?;
    hide Run, Inv, Preparing, PrepareFrom, AtLimit;
    BatchFresh(cfg, s);
    var i := BatchStart(s);
    if Underfunded(cfg, s) {
      UnderfundedFails(cfg, s, i, i);
    } else if !PrepareFrom(cfg, s, i, |s.running|, decode).0 {
      var j := FailsOnLengthOnly(cfg, s, i, i, decode);
    } else if j :| i <= j < |s.running| && AtLimit(cfg, s.running[j], decode) {
      LimitFails(cfg, s, i, i, decode, j);
      assert false;
    }
  }

  /** A request at the length limit fails. */
  lemma {:induction false} LimitFails(cfg: Config, s: Sys, start: nat, i: nat, decode: bool, j: nat)
    requires ConfigOk(cfg) && Preparing(cfg, s, start, i, decode) && i <= j < |s.running| && AtLimit(cfg, s.running[j], decode)
    ensures !PrepareFrom(cfg, s, i, |s.running|, decode).0
    decreases |s.running| - i
  {
    if PrepOf(cfg, s, i, decode).ok {
      LimitRefused(cfg, s, i, decode);
      hide Preparing;
      PrepareStep(cfg, s, start, i, decode);
      LimitFails(cfg, WithPrep(cfg, s, i, decode), start, i + 1, decode, j);
    }
  }

  lemma LimitRefused(cfg: Config, s: Sys, i: nat, decode: bool)
    requires ConfigOk(cfg) && i < |s.running| && PrepOf(cfg, s, i, decode).ok
    ensures !AtLimit(cfg, s.running[i], decode)
  {}

  /**
   No shared block is ever written. Once the metadata of a pass is done, every position any request
   of the batch writes lies in a block with reference count one, past the adopted prefix.
   */
  lemma NoSharedWrite(cfg: Config, n: nat, acts: seq<Action>, i: nat, p: nat)
    requires ConfigOk(cfg)
    requires var s := Run(cfg, n, acts);
      && !s.fault && !s.pc.Idle? && 0 <= BatchStart(s) <= i < |s.running|
      && PrepareFrom(cfg, s, BatchStart(s), |s.running|, s.pc.Decoding?).0
      && From(cfg, s.running[i], s.pc.Decoding?) <= p < |s.running[i].Seq()|
    ensures var s := Run(cfg, n, acts); var u := PrepareFrom(cfg, s, BatchStart(s), |s.running|, s.pc.Decoding?).1;
      && |u.running| == |s.running| && Blk(p, cfg.bs) < |u.running[i].kv.table|
      && var b := u.running[i].kv.table[Blk(p, cfg.bs)];
         && b < |u.pool.ref| && u.pool.ref[b] == 1 && !Held(u.tree, b)
         && (forall m, k :: 0 <= m < |u.running| && m != i && 0 <= k < |u.running[m].kv.table| ==> u.running[m].kv.table[k] != b)
  {
    var s := Run(cfg, n, acts);
    var decode := s.pc.Decoding?;
    hide Run, Inv, Funded, Preparing, PrepareFrom, Safe, Held, Blk;
    BatchFresh(cfg, s);
    var k := BatchStart(s);
    PrepareAll(cfg, s, k, k, |s.running|, decode);
    PrepareSame(cfg, s, k, |s.running|, decode);
    var u := PrepareFrom(cfg, s, k, |s.running|, decode).1;
    PreparingDone(cfg, u, k, decode);
    FreshShared(cfg, s, u, k, decode);
    assert Prepared(cfg, u.running[i]);
    assert u.running[i] == s.running[i].(kv := u.running[i].kv);
    WritesAreExclusive(cfg, u, i, decode, p);
  }

  // ---------------------------------------------------------------- references that get lost

  /**
   An admission attempt that gets as far as forking overflows exactly when something matched and the
   match reaches the length limit; a request that fits the context never does.
   */
  lemma OverflowIff(cfg: Config, s: Sys, budget: int)
    requires ConfigOk(cfg) && TreeOk(s.tree, Handles(s.running)) && s.pc.Prefilling? && s.waiting != [] && Parked(s.waiting[0])
    ensures var blocks := Matched(s.tree, LookupKey(cfg, s.waiting[0]));
      && (!AdmitOne(cfg, s, budget).Refused? ==>
            (AdmitOne(cfg, s, budget).Overflow? <==> blocks != [] && |blocks| * cfg.bs >= cfg.maxLen))
      && (|s.waiting[0].Seq()| <= cfg.maxLen ==> !AdmitOne(cfg, s, budget).Overflow?)
  {
    hide TreeOk, Evict, Free, Ref, Walk, Pinned, Unpin, Chunks;
    TreeShape(s.tree, Handles(s.running));
    MatchFacts(cfg, s.tree, s.waiting[0]);
  }

  lemma TreeShape(t: Tree, hs: seq<int>)
    requires TreeOk(t, hs)
    ensures Shape(t) && LruOk(t)
  {}

  /** The blocks an admission loop forks for a request it then cannot admit; none if it ends well. */
  function Overrun(cfg: Config, s: Sys, budget: int): seq<nat>
    requires ConfigOk(cfg) && Budgeted(cfg, s, budget)
    decreases |s.waiting|
  {
    hide Budgeted, Inv, TreeOk, Core, Shape, AdmitOne, Parked, Handles, Need, Safe, Matched;
    BudgetedCore(cfg, s, budget);
    if s.waiting == [] then []
    else
      AttemptShape(cfg, s, budget);
      AttemptKeeps(cfg, s, budget);
      var a := AdmitOne(cfg, s, budget);
      if a.Admitted? then Overrun(cfg, a.sys, a.budget)
      else if a.Refused? then []
      else Matched(s.tree, LookupKey(cfg, s.waiting[0]))
  }

  lemma {:induction false} AdmitLoopLost(cfg: Config, s: Sys, budget: int)
    requires ConfigOk(cfg) && Budgeted(cfg, s, budget)
    ensures var r, blocks := AdmitLoop(cfg, s, budget), Overrun(cfg, s, budget);
      r.sys.lost == s.lost + blocks && (r.broken <==> blocks != [])
    decreases |s.waiting|
  {
    hide Budgeted, Inv, TreeOk, Core, Shape, AdmitOne, Parked, Handles, Need, Safe, Matched, Held;
    BudgetedCore(cfg, s, budget);
    if s.waiting != [] {
      AttemptShape(cfg, s, budget);
      AttemptKeeps(cfg, s, budget);
      var a := AdmitOne(cfg, s, budget);
      if a.Admitted? {
        AdmitLoopLost(cfg, a.sys, a.budget);
      } else if a.Overflow? {
        OverflowKeeps(cfg, s, budget);
      }
    }
  }

  lemma {:induction false} FailAllLost(cfg: Config, s: Sys)
    requires ConfigOk(cfg) && Safe(cfg, s)
    ensures FailAll(cfg, s).lost == s.lost
    decreases |s.running|, |s.waiting|
  {
    hide Safe, Inv, ReleaseRunning, ReleaseWaiting, FailAll;
    if s.running != [] {
      FailRunning(cfg, s);
      FailAllLost(cfg, ReleaseRunning(s, 0));
    } else if s.waiting != [] {
      FailWaiting(cfg, s);
      FailAllLost(cfg, ReleaseWaiting(s, 0));
    } else {
      FailEmpty(cfg, s);
    }
  }

  lemma {:induction false} ReleaseAllLost(cfg: Config, s: Sys, ids: seq<nat>)
    requires ConfigOk(cfg) && Inv(cfg, s) && s.pc.Idle?
    ensures ReleaseAll(cfg, s, ids).lost == s.lost
    decreases ids
  {
    hide Inv, UnpinOf, Free;
    if ids != [] { ReleaseAllLost(cfg, Release(cfg, s, ids[0]), ids[1..]); }
  }

  lemma {:induction false} PreemptLost(cfg: Config, s: Sys)
    requires ConfigOk(cfg) && Inv(cfg, s) && s.pc.Idle?
    ensures PreemptLoop(cfg, s).lost == s.lost
    decreases |s.running|
  {
    hide Inv, UnpinOf, Free;
    if |s.pool.free| < |s.running| {
      PreemptKeeps(cfg, s);
      PreemptLost(cfg, PreemptLast(s));
    }
  }

  /** What a tick loses: the blocks of an overflow in its admission loop. */
  function LostBy(cfg: Config, s: Sys, order: seq<nat>): seq<nat>
    requires ConfigOk(cfg) && Inv(cfg, s) && s.pc.Idle?
  {
    hide Inv, Budgeted;
    var cleared := ReleaseAll(cfg, s, order).(aborted := {});
    AbortedKeeps(cfg, ReleaseAll(cfg, s, order));
    StartKeeps(cfg, cleared);
    Overrun(cfg, cleared.(pc := Prefilling(0)), |cleared.pool.free|)
  }

  /** A tick loses exactly the forked blocks of an overflow, and then it drops every request. */
  lemma TickLost(cfg: Config, s: Sys, order: seq<nat>)
    requires ConfigOk(cfg) && Inv(cfg, s) && s.pc.Idle?
    ensures var u, blocks := Tick(cfg, s, order), LostBy(cfg, s, order);
      && u.lost == s.lost + blocks
      && (blocks != [] ==> u.running == [] && u.waiting == [] && u.pc.Idle?)
  {
    hide Inv, Budgeted, Safe, Funded, AdmitLoop, Overrun;
    var cleared := ReleaseAll(cfg, s, order).(aborted := {});
    ReleaseAllLost(cfg, s, order);
    AbortedKeeps(cfg, ReleaseAll(cfg, s, order));
    StartKeeps(cfg, cleared);
    var begun := cleared.(pc := Prefilling(0));
    AdmitLoopLost(cfg, begun, |cleared.pool.free|);
    var a := AdmitLoop(cfg, begun, |cleared.pool.free|);
    if a.broken {
      FailAllLost(cfg, a.sys);
    } else if a.sys.pc.k == 0 {
      PcKeeps(cfg, a.sys, Idle);
      if a.sys.running != [] { PreemptLost(cfg, a.sys.(pc := Idle)); }
    }
  }

  lemma {:induction false} FinishFromLost(cfg: Config, s: Sys, i: nat)
    requires ConfigOk(cfg) && Finishing(cfg, s, i) && !s.fault
    ensures FinishFrom(cfg, s, i).lost == s.lost
    decreases |s.running| - i
  {
    hide Finishing, Inv, FinishAt, Ready, Faults;
    FinishBounds(cfg, s, i);
    if i < |s.running| {
      FinishStep(cfg, s, i);
      if s.running[i].phase != Finished {
        FinishFromLost(cfg, s, i + 1);
      } else {
        FinishingSafe(cfg, s, i);
        if !Faults(cfg, s, i) {
          FinishAtLost(cfg, s, i);
          FinishFromLost(cfg, FinishAt(cfg, s, i), i);
        }
      }
    }
  }

  lemma FinishAtLost(cfg: Config, s: Sys, i: nat)
    requires ConfigOk(cfg) && Safe(cfg, s) && i < |s.running| && Ready(cfg, s.running[i])
    ensures FinishAt(cfg, s, i).lost == s.lost
  {
    hide Safe, Ready, Insert, Ref, Free, UnpinOf, Faults;
    SafeShape(cfg, s, i);
    FinishDefined(cfg, s, i);
  }

  lemma ForwardLost(cfg: Config, s: Sys)
    requires ConfigOk(cfg) && Inv(cfg, s) && Funded(cfg, s) && !s.pc.Idle? && !s.fault
    ensures Forward(cfg, s).lost == s.lost
  {
    hide Inv, Funded, Finishing, Safe, PrepareFrom, SampleFrom, WriteBatch, FinishFrom;
    BatchFresh(cfg, s);
    PrepareAll(cfg, s, BatchStart(s), BatchStart(s), |s.running|, s.pc.Decoding?);
    var (ok, prepared) := PrepareFrom(cfg, s, BatchStart(s), |s.running|, s.pc.Decoding?);
    if !ok || s.running == [] {
      FailAllLost(cfg, prepared);
    } else {
      ForwardedFinishing(cfg, s);
      FinishFromLost(cfg, Forwarded(cfg, s), 0);
    }
  }

  lemma CrashLost(cfg: Config, s: Sys, k: nat, junk: (nat, nat) -> Cell)
    requires ConfigOk(cfg) && Inv(cfg, s) && Funded(cfg, s) && !s.pc.Idle?
    ensures Crash(cfg, s, k, junk).lost == s.lost
  {
    hide Inv, Funded, Safe, PrepareFrom, JunkBatch;
    BatchFresh(cfg, s);
    var i := BatchStart(s);
    var upto := if i + k <= |s.running| then i + k else |s.running|;
    PrepareAll(cfg, s, i, i, upto, s.pc.Decoding?);
    var u := PrepareFrom(cfg, s, i, upto, s.pc.Decoding?).1;
    var mem := JunkBatch(cfg, u.mem, u.running[i..], s.pc.Decoding?, junk);
    PreparingSafe(cfg, u, i, upto, s.pc.Decoding?, mem);
    FailAllLost(cfg, u.(mem := mem));
  }

  /** Only an overflowing tick loses references, and nothing ever finds one again. */
  lemma StepLost(cfg: Config, s: Sys, a: Action)
    requires ConfigOk(cfg) && Inv(cfg, s) && (s.fault || Funded(cfg, s))
    ensures s.lost <= Step(cfg, s, a).lost
    ensures Step(cfg, s, a).lost != s.lost ==>
      a.Start? && s.pc.Idle? && LostBy(cfg, s, a.order) != []
      && Step(cfg, s, a).lost == s.lost + LostBy(cfg, s, a.order)
      && Step(cfg, s, a).running == [] && Step(cfg, s, a).waiting == []
  {
    hide Inv, Funded, Tick, Forward, Crash, LostBy;
    if !s.fault {
      match a
      case Submit(_, _, _) =>
      case Abort(_) =>
      case Start(order) =>
        if s.pc.Idle? { TickLost(cfg, s, order); }
      case Pass =>
        if !s.pc.Idle? { ForwardLost(cfg, s); }
      case Fail(k, junk) =>
        if !s.pc.Idle? { CrashLost(cfg, s, k, junk); }
    }
  }

  lemma {:induction false} RunLost(cfg: Config, n: nat, acts: seq<Action>, more: seq<Action>)
    requires ConfigOk(cfg)
    ensures Run(cfg, n, acts).lost <= Run(cfg, n, acts + more).lost
    decreases |more|
  {
    hide Inv, Funded, Step, LostBy;
    if more == [] {
      assert acts + more == acts;
    } else {
      var mid, a := acts + more[..|more| - 1], more[|more| - 1];
      assert acts + more == mid + [a];
      RunLost(cfg, n, acts, more[..|more| - 1]);
      StepLost(cfg, Run(cfg, n, mid), a);
      assert (mid + [a])[..|mid|] == mid;
    }
  }

  /**
   A block with a lost reference is gone for good: after any further actions, releases and evictions
   among them, it is still allocated and not on the free list.
   */
  lemma LostForever(cfg: Config, n: nat, acts: seq<Action>, more: seq<Action>, b: nat)
    requires ConfigOk(cfg) && b in Run(cfg, n, acts).lost
    ensures var u := Run(cfg, n, acts + more); b < |u.pool.ref| && u.pool.ref[b] > 0 && b !in u.pool.free
  {
    hide Run, Inv, Funded;
    RunLost(cfg, n, acts, more);
    var s, u := Run(cfg, n, acts), Run(cfg, n, acts + more);
    assert b in u.lost by {
      var i :| 0 <= i < |s.lost| && s.lost[i] == b;
      assert u.lost[i] == b;
    }
    LostHeld(cfg, u, b);
  }

  lemma LostHeld(cfg: Config, s: Sys, b: nat)
    requires ConfigOk(cfg) && Inv(cfg, s) && b in s.lost
    ensures b < |s.pool.ref| && s.pool.ref[b] > 0 && b !in s.pool.free
  {
    hide Phases, TreeOk, Adopted, Exclusive, InOrder, Unshared, Held, Injective, Occ;
    CountZero(s.lost, b);
    assert Owners(s.tree, s.running, b) + Count(s.lost, b) == if b < |s.pool.ref| then s.pool.ref[b] else 0;
  }

  /** After the tick that lost them, each block has one reference too many for each time it was forked. */
  lemma OverflowLeaks(cfg: Config, s: Sys, order: seq<nat>)
    requires ConfigOk(cfg) && Inv(cfg, s) && s.pc.Idle? && LostBy(cfg, s, order) != []
    ensures var u, blocks := Tick(cfg, s, order), LostBy(cfg, s, order);
      && u.running == [] && u.waiting == [] && TreeOk(u.tree, [])
      && forall b: nat :: b < |u.pool.ref| ==>
           u.pool.ref[b] == (if Held(u.tree, b) then 1 else 0) + Count(s.lost, b) + Count(blocks, b)
  {
    hide LostBy, Tick, Inv, Funded;
    TickLost(cfg, s, order);
    EmptyOwners(cfg, Tick(cfg, s, order));
    var u, blocks := Tick(cfg, s, order), LostBy(cfg, s, order);
    forall b: nat | b < |u.pool.ref|
      ensures u.pool.ref[b] == (if Held(u.tree, b) then 1 else 0) + Count(s.lost, b) + Count(blocks, b)
    {
      CountConcat(s.lost, blocks, b);
    }
  }

  lemma EmptyOwners(cfg: Config, s: Sys)
    requires ConfigOk(cfg) && Inv(cfg, s) && s.running == []
    ensures TreeOk(s.tree, [])
    ensures forall b: nat :: b < |s.pool.ref| ==> s.pool.ref[b] == (if Held(s.tree, b) then 1 else 0) + Count(s.lost, b)
  {
    hide Phases, TreeOk, Injective;
    assert Handles([]) + [] == [];
    forall b: nat | b < |s.pool.ref| ensures s.pool.ref[b] == (if Held(s.tree, b) then 1 else 0) + Count(s.lost, b) {
      assert Owners(s.tree, [], b) + Count(s.lost, b) == if b < |s.pool.ref| then s.pool.ref[b] else 0;
    }
  }
}
