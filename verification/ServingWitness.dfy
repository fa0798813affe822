/** Concrete runs in which the code as written leaves its own contract. */
module ServingWitness {
  import opened Basics
  import opened Tokens
  import opened PoolSpec
  import opened CacheSpec
  import opened RadixSpec
  import opened RadixUpdate
  import opened RadixInsertEvict
  import opened ServingState
  import opened ServingCore
  import opened Serving
  import opened ServingAdmit
  import opened ServingForward
  import opened ServingRun
  import opened ServingSolo
  import opened ServingContent
  import opened ServingSound
  import opened ServingPreempt
  import opened ServingTheorems
  import opened ServingFaultless

  /** The code as written, with blocks of two tokens. The cell of a token is the next number; the model always says 7. */
  function Plain(maxLen: int, useRadix: bool): Config {
    Config(2, maxLen, useRadix, false, false, (n: int) => 0, (ctx: seq<Cell>, t: Token) => t + 1, (ctx: seq<Cell>) => 7)
  }

  // ---------------------------------------------------------------- first steps

  lemma FirstSubmit(cfg: Config, n: nat, prompt: seq<Token>, maxTokens: int, eos: Token)
    requires ConfigOk(cfg) && prompt != []
    ensures Run(cfg, n, [Submit(prompt, maxTokens, eos)])
      == NewSys(cfg, n).(waiting := [Req(0, prompt, [], maxTokens, eos, Waiting, FRESH, None, 0)], nextId := 1)
  {
    var acts: seq<Action> := [];
    RunMore(cfg, n, acts, Submit(prompt, maxTokens, eos));
    assert acts + [Submit(prompt, maxTokens, eos)] == [Submit(prompt, maxTokens, eos)];
    assert Run(cfg, n, acts) == NewSys(cfg, n);
  }

  /** Without anything recorded the request joins as it is. */
  lemma EmptyJoin(cfg: Config, s: Sys)
    requires ConfigOk(cfg) && Inv(cfg, s) && s.pc.Idle? && !s.fault && s.aborted == {} && s.tree == EMPTY
    requires |s.waiting| == 1 && s.running == [] && s.waiting[0].Seq() != []
    requires CeilDiv(|s.waiting[0].Seq()|, cfg.bs) <= |s.pool.free|
    requires CeilDiv(|s.waiting[0].Seq()|, cfg.bs) <= |s.pool.free| - cfg.reserve(Remaining(s.waiting[0])) && 0 < cfg.maxLen
    ensures Step(cfg, s, Start([])) == s.(running := s.waiting, waiting := [], pc := Prefilling(1))
  {
    hide Inv, Funded, Matched, CeilDiv, Chunks;
    IdleFunded(cfg, s);
    var r := s.waiting[0];
    EmptyStays(LookupKey(cfg, r), 0);
    SoloTick(cfg, s);
    FreeNothing(s.pool);
    assert s.running + [r] == s.waiting;
  }

  function FirstReq(prompt: seq<Token>, maxTokens: int, eos: Token): Req {
    Req(0, prompt, [], maxTokens, eos, Waiting, FRESH, None, 0)
  }

  /** The first request of a run, admitted. */
  lemma FirstAdmitted(cfg: Config, n: nat, prompt: seq<Token>, maxTokens: int, eos: Token)
    requires ConfigOk(cfg) && prompt != [] && 0 < cfg.maxLen && CeilDiv(|prompt|, cfg.bs) <= n
    requires CeilDiv(|prompt|, cfg.bs) <= n - cfg.reserve(Remaining(FirstReq(prompt, maxTokens, eos)))
    ensures Run(cfg, n, [Submit(prompt, maxTokens, eos), Start([])])
      == NewSys(cfg, n).(running := [FirstReq(prompt, maxTokens, eos)], nextId := 1, pc := Prefilling(1))
  {
    hide CeilDiv, Inv, Funded, Step;
    var a1 := [Submit(prompt, maxTokens, eos)];
    assert a1 + [Start([])] == [Submit(prompt, maxTokens, eos), Start([])];
    FirstSubmit(cfg, n, prompt, maxTokens, eos);
    RunMore(cfg, n, a1, Start([]));
    assert prompt + [] == prompt;
    hide Run;
    EmptyJoin(cfg, Run(cfg, n, a1));
  }

  // ---------------------------------------------------------------- a lone request preempted

  lemma LonePrefill(cfg: Config, s: Sys)
    requires cfg == Plain(8, false) && Inv(cfg, s) && Funded(cfg, s) && !s.fault && s.pc == Prefilling(1)
    requires s.running == [Req(0, [5, 6], [], 5, 0, Waiting, FRESH, None, 0)] && s.waiting == [] && s.pool == NewPool(1)
    requires s.done == [] && s.aborted == {}
    ensures var u := Step(cfg, s, Pass);
      && u.pc.Idle? && !u.fault && Starved(u) && u.waiting == [] && u.done == [] && u.aborted == {} && u.running[0].gen == [7]
  {
    hide Inv, Funded, WriteToks, Gather;
    var r := s.running[0];
    assert r.Seq() == [5, 6];
    var p := PrepOf(cfg, s, 0, false);
    assert p.ok && p.pool.free == [];
    SoloPass(cfg, s);
  }

  lemma LoneEnd(cfg: Config, s: Sys)
    requires ConfigOk(cfg) && Inv(cfg, s) && !s.fault && s.pc.Idle? && Starved(s) && s.waiting == [] && s.done == [] && s.aborted == {}
    ensures var t := Step(cfg, s, Start([])); Inv(cfg, t) && Funded(cfg, t)
    ensures var u := Step(cfg, Step(cfg, s, Start([])), Pass);
      && !u.fault && u.running == [] && u.waiting == []
      && |u.done| == 1 && !u.done[0].normal && u.done[0].req.gen == s.running[0].gen
  {
    hide Inv, Funded, PreemptLoop, Forward;
    IdleFunded(cfg, s);
    QuietTick(cfg, s);
    LoneRequestLost(cfg, s);
    var u := Forward(cfg, PreemptLoop(cfg, s).(pc := Decoding));
    assert u.done[0] == u.done[|s.done|..][0];
  }

  /** Where the run stands after the first pass. */
  ghost predicate LoneStands(s: Sys) {
    s.pc.Idle? && !s.fault && Starved(s) && s.waiting == [] && s.done == [] && s.aborted == {} && s.running[0].gen == [7]
  }

  lemma LoneToPass(acts: seq<Action>)
    requires acts == [Submit([5, 6], 5, 0), Start([]), Pass]
    ensures LoneStands(Run(Plain(8, false), 1, acts))
  {
    var cfg := Plain(8, false);
    var a2 := [Submit([5, 6], 5, 0), Start([])];
    assert a2 + [Pass] == acts;
    FirstAdmitted(cfg, 1, [5, 6], 5, 0);
    RunMore(cfg, 1, a2, Pass);
    hide Run, Step, Inv, Funded;
    LonePrefill(cfg, Run(cfg, 1, a2));
  }

  /** One block in all, a prompt that fills it: after its first token the request is given up. */
  lemma LoneRun()
    ensures var acts := [Submit([5, 6], 5, 0), Start([]), Pass, Start([]), Pass];
      var s := Run(Plain(8, false), 1, acts);
      && !s.fault && s.running == [] && s.waiting == []
      && |s.done| == 1 && !s.done[0].normal && s.done[0].req.gen == [7]
  {
    var cfg := Plain(8, false);
    var a3 := [Submit([5, 6], 5, 0), Start([]), Pass];
    var a4 := a3 + [Start([])];
    assert a4 + [Pass] == [Submit([5, 6], 5, 0), Start([]), Pass, Start([]), Pass];
    RunMore(cfg, 1, a3, Start([]));
    RunMore(cfg, 1, a4, Pass);
    hide Run, Step, Inv, Funded, Plain;
    LoneToPass(a3);
    LoneEnd(cfg, Run(cfg, 1, a3));
  }

  // ---------------------------------------------------------------- a match that fills the context

  /** One block recorded, `[5, 7]` in block 0. */
  const RECORDED: Tree := Tree(map[ROOT := Node([], [], [], -1, map[[5, 7] := 1], 1), 1 := Node([[5, 7]], [[5, 7]], [0], ROOT, map[], 0)], [1], 1, 2)

  lemma RecordedIs()
    ensures Shape(EMPTY) && RECORDED == Insert(EMPTY, [[5, 7]], [0]) && Known(EMPTY, [[5, 7]]) == 0
    ensures !DivergesMidBlock(EMPTY, [[5, 7]])
    ensures Shape(RECORDED) && Find(RECORDED, [[5, 7]]) == (1, 1) && Matched(RECORDED, [[5, 7]]) == [0]
  {
    var x: seq<Chunk> := [[5, 7]];
    InsertFirst(x, [0]);
    assert [0][..|x|] == [0];
    assert StopsAt(RECORDED, x, 1, 1) by { assert x[..1] == x; }
    StopUnique(RECORDED, x, 1, 1, Find(RECORDED, x).0, Find(RECORDED, x).1);
    Up(RECORDED, 1);
    assert PathBlocks(RECORDED, 1) == PathBlocks(RECORDED, ROOT) + [0] == [0];
    assert [0][..1] == [0];
  }

  lemma ShortChunks()
    ensures Chunks([5, 7], 2) == [[5, 7]] && Chunks([5, 7, 7], 2) == [[5, 7]]
  {
    assert ChunkAt([5, 7], 2, 0) == [5, 7] && ChunkAt([5, 7, 7], 2, 0) == [5, 7];
  }

  /** First pass: the prompt `[5]` in block 0, first token 7. */
  lemma FirstPass(cfg: Config, s: Sys)
    requires cfg == Plain(2, true) && Inv(cfg, s) && Funded(cfg, s) && !s.fault && s.pc == Prefilling(1)
    requires s.running == [Req(0, [5], [], 2, 0, Waiting, FRESH, None, 0)] && s.pool == NewPool(2)
    ensures var u := Step(cfg, s, Pass);
      u == s.(mem := u.mem, pool := Pool([1, 0], [1]), pc := Idle,
              running := [Req(0, [5], [7], 2, 0, Running, Kv(1, [0], true, false), None, 0)])
  {
    hide Inv, Funded, WriteToks, Gather;
    var r := s.running[0];
    assert r.Seq() == [5];
    TakeFirst();
    var p := PrepOf(cfg, s, 0, false);
    assert p.kv == Kv(1, [0], true, false);
    var none: seq<Token> := [];
    assert none + [7] == [7];
    assert Stepped(cfg, s).running == [Req(0, [5], [7], 2, 0, Running, Kv(1, [0], true, false), None, 0)];
    SoloPass(cfg, s);
  }

  lemma TakeFirst()
    ensures NewPool(2).free[..1] == [0] && Alloc(NewPool(2), 1) == Pool([1, 0], [1])
  {
    var p := NewPool(2);
    assert p.free == [0, 1] && p.ref == [0, 0];
    assert p.free[..1] == [0] && p.free[1..] == [1];
    assert Alloc(p, 1).ref == [1, 0];
  }

  lemma SecondStepped(cfg: Config, s: Sys)
    requires cfg == Plain(2, true) && s.pc == Decoding
    requires s.running == [Req(0, [5], [7], 2, 0, Running, Kv(1, [0], true, false), None, 0)] && s.pool == Pool([1, 0], [1])
    ensures PrepOf(cfg, s, 0, true).ok
    ensures var u := Stepped(cfg, s);
      u == s.(mem := u.mem, pc := Idle, running := [Req(0, [5], [7, 7], 2, 0, Finished, Kv(2, [0], true, false), None, 0)])
  {
    hide WriteToks, Gather;
    var p := PrepOf(cfg, s, 0, true);
    assert p.ok && p.pool == s.pool && p.kv == Kv(2, [0], true, false);
    assert [7] + [7] == [7, 7];
  }

  /** Recording block 0 and giving the request's reference back. */
  lemma GiveBack()
    ensures Ref(Pool([1, 0], [1]), [0]) == (true, Pool([2, 0], [1]))
    ensures Free(Pool([2, 0], [1]), [0]) == (true, Pool([1, 0], [1]))
  {
    var p, q := Pool([1, 0], [1]), Pool([2, 0], [1]);
    var ids: seq<nat> := [0];
    assert ids[1..] == [];
    assert p.(ref := p.ref[0 := 2]) == q && Decr(q, 0) == p;
    assert Ref(p, ids) == Ref(q, ids[1..]) && Free(q, ids) == Free(p, ids[1..]);
  }

  lemma FirstRecord(cfg: Config, s: Sys)
    requires ConfigOk(cfg) && cfg == Plain(2, true) && Safe(cfg, s) && s.tree == EMPTY && s.pool == Pool([1, 0], [1])
    requires s.running == [Req(0, [5], [7, 7], 2, 0, Finished, Kv(2, [0], true, false), None, 0)] && Ready(cfg, s.running[0])
    ensures Shape(s.tree) && !Faults(cfg, s, 0)
    ensures FinishAt(cfg, s, 0) == s.(done := FinishAt(cfg, s, 0).done, tree := RECORDED, running := [])
  {
    hide Safe, Ready, Chunks, Insert, Find, Walk, Ref, Free, Known, DivergesMidBlock, Shape;
    RecordedIs();
    ShortChunks();
    GiveBack();
    var r := s.running[0];
    assert r.Seq() == [5, 7, 7];
    assert RecordKey(cfg, r) == [[5, 7]];
    assert [0][0..1] == [0];
    SafeShape(cfg, s, 0);
    FinishDefined(cfg, s, 0);
  }

  /** Second pass: it finishes and block 0 is recorded. */
  lemma SecondPass(cfg: Config, s: Sys)
    requires cfg == Plain(2, true) && Inv(cfg, s) && Funded(cfg, s) && !s.fault && s.pc == Decoding && s.tree == EMPTY
    requires s.running == [Req(0, [5], [7], 2, 0, Running, Kv(1, [0], true, false), None, 0)] && s.pool == Pool([1, 0], [1])
    ensures var u := Step(cfg, s, Pass);
      u == s.(mem := u.mem, done := u.done, tree := RECORDED, running := [], pc := Idle)
  {
    hide Inv, Funded, PrepOf, Stepped, FinishAt, Faults, Safe, Ready, Shape;
    SecondStepped(cfg, s);
    SteppedSafe(cfg, s);
    FirstRecord(cfg, Stepped(cfg, s));
    SoloFinish(cfg, s);
  }

  lemma SteppedSafe(cfg: Config, s: Sys)
    requires ConfigOk(cfg) && Inv(cfg, s) && Funded(cfg, s) && !s.fault && !s.pc.Idle?
    requires |s.running| == 1 && BatchStart(s) == 0 && PrepOf(cfg, s, 0, s.pc.Decoding?).ok
    ensures Safe(cfg, Stepped(cfg, s)) && Ready(cfg, Stepped(cfg, s).running[0])
  {
    hide Inv, Funded, PrepareMeta, Stepped, PrepareFrom, Forwarded, Safe, Ready;
    SoloForwarded(cfg, s);
    ForwardedFinishing(cfg, s);
  }

  /** The lookup of the prompt `[5, 7, 9]` finds block 0. */
  lemma SecondLookup(cfg: Config, r: Req)
    requires ConfigOk(cfg) && cfg.bs == 2 && r == Req(1, [5, 7, 9], [], r.maxTokens, r.eos, Waiting, FRESH, None, 0)
    ensures r.Seq() == [5, 7, 9] && Parked(r) && LookupKey(cfg, r) == [[5, 7]] && CeilDiv(|r.Seq()|, cfg.bs) == 2
    ensures Shape(RECORDED) && Find(RECORDED, LookupKey(cfg, r)) == (1, 1) && Matched(RECORDED, LookupKey(cfg, r)) == [0]
    ensures Touch(RECORDED, 1) == RECORDED
  {
    hide Chunks, Find, Matched, Shape;
    RecordedIs();
    ShortChunks();
    TouchRecorded();
    hide *;
    SecondSeq(cfg, r);
  }

  lemma TouchRecorded()
    ensures Touch(RECORDED, 1) == RECORDED
  {
    assert Without([1], 1) == [] && 1 in RECORDED.lru;
  }

  lemma SecondSeq(cfg: Config, r: Req)
    requires ConfigOk(cfg) && cfg.bs == 2 && r == Req(1, [5, 7, 9], [], r.maxTokens, r.eos, Waiting, FRESH, None, 0)
    requires Chunks([5, 7], 2) == [[5, 7]]
    ensures r.Seq() == [5, 7, 9] && Parked(r) && LookupKey(cfg, r) == [[5, 7]] && CeilDiv(|r.Seq()|, cfg.bs) == 2
  {
    hide Chunks;
    assert r.Seq() == [5, 7, 9] && r.Seq()[..2] == [5, 7];
  }

  lemma PinBack()
    ensures 1 in RECORDED.nodes && 1 in Pin(RECORDED, 1).nodes && Unpin(Pin(RECORDED, 1), 1) == RECORDED
  {
    var t := Pin(RECORDED, 1);
    assert Anc(RECORDED, ROOT, 1) && Anc(t, ROOT, 1);
    assert Without([1], 1) == [] && t.lru == [];
    assert Unpin(t, 1).nodes == RECORDED.nodes;
  }

  /** Where the overflowing attempt leaves the state. */
  function Overflowed(s: Sys): Sys {
    s.(tree := Pin(RECORDED, 1), pool := Pool([2, 0], [1]), lost := [0],
       running := [Req(1, [5, 7, 9], [], 1, 0, Waiting, FRESH, Some(1), 0)], waiting := [])
  }

  lemma OverflowBegun(cfg: Config, s: Sys)
    requires cfg == Plain(2, true) && Budgeted(cfg, s, 1) && s.running == [] && s.tree == RECORDED && s.pool == Pool([1, 0], [1]) && s.lost == []
    requires s.waiting == [Req(1, [5, 7, 9], [], 1, 0, Waiting, FRESH, None, 0)]
    ensures AdmitLoop(cfg, s, 1) == Admission(Overflowed(s), true)
  {
    hide Budgeted, Chunks, Find, Matched, AdmitOne, TreeOk, Shape, LookupKey, CeilDiv, Touch, Parked, Inv, Pin, Ref;
    SecondLookup(cfg, s.waiting[0]);
    BudgetedCore(cfg, s, 1);
    GiveBack();
    RoomOverflows(cfg, s, 1);
    assert AdmitOne(cfg, s, 1) == Overflow(Overflowed(s));
  }

  lemma OverflowDrops(cfg: Config, s: Sys)
    requires ConfigOk(cfg) && Safe(cfg, Overflowed(s))
    ensures var u := FailAll(cfg, Overflowed(s));
      u == s.(tree := RECORDED, pool := Pool([2, 0], [1]), lost := [0], running := [], waiting := [], done := u.done, pc := Idle)
  {
    hide Safe, Pin, Unpin, FailAll;
    var u := Overflowed(s);
    FailRunning(cfg, u);
    PinBack();
    FreeNothing(u.pool);
    FailEmpty(cfg, ReleaseRunning(u, 0));
  }

  /** It alone fills the context of two tokens. */
  lemma OverflowStep(cfg: Config, s: Sys)
    requires cfg == Plain(2, true) && Inv(cfg, s) && !s.fault && s.pc == Idle && s.aborted == {} && s.lost == []
    requires s.waiting == [Req(1, [5, 7, 9], [], 1, 0, Waiting, FRESH, None, 0)] && s.running == []
    requires s.tree == RECORDED && s.pool == Pool([1, 0], [1])
    ensures Funded(cfg, s)
    ensures var u := Step(cfg, s, Start([])); u == s.(pool := Pool([2, 0], [1]), lost := [0], waiting := [], done := u.done)
  {
    hide Inv, Funded, Budgeted, Safe, FailAll, AdmitLoop, Overflowed;
    IdleFunded(cfg, s);
    var cleared := ReleaseAll(cfg, s, []).(aborted := {});
    assert cleared == s;
    StartKeeps(cfg, s);
    var begun := s.(pc := Prefilling(0));
    OverflowBegun(cfg, begun);
    OverflowDrops(cfg, begun);
  }

  /** How far the run has come when the first request has left. */
  ghost predicate FirstLeft(s: Sys) {
    && s.waiting == [] && s.running == [] && s.aborted == {} && s.lost == [] && s.nextId == 1 && s.pc == Idle && !s.fault
    && s.tree == RECORDED && s.pool == Pool([1, 0], [1])
  }

  lemma RunToFirst(acts: seq<Action>)
    requires acts == [Submit([5], 2, 0), Start([]), Pass, Start([]), Pass]
    ensures FirstLeft(Run(Plain(2, true), 2, acts))
  {
    var cfg := Plain(2, true);
    var a2 := [Submit([5], 2, 0), Start([])];
    var a3 := a2 + [Pass];
    var a4 := a3 + [Start([])];
    assert a4 + [Pass] == acts;
    FirstAdmitted(cfg, 2, [5], 2, 0);
    RunMore(cfg, 2, a2, Pass);
    RunMore(cfg, 2, a3, Start([]));
    RunMore(cfg, 2, a4, Pass);
    hide Run, Inv, Funded, Step;
    FirstPass(cfg, Run(cfg, 2, a2));
    hide Plain;
    DecodeStart(cfg, Run(cfg, 2, a3));
    SecondPass(cfg, Run(cfg, 2, a4));
  }

  /** The code as written loses the references of a match that fills the context. */
  lemma OverflowRun()
    ensures var acts := [Submit([5], 2, 0), Start([]), Pass, Start([]), Pass, Submit([5, 7, 9], 1, 0), Start([])];
      var s := Run(Plain(2, true), 2, acts);
      !s.fault && s.lost == [0] && s.running == [] && s.waiting == []
  {
    hide Run, Inv, Funded, Step;
    RunToLeak([Submit([5], 2, 0), Start([]), Pass, Start([]), Pass, Submit([5, 7, 9], 1, 0), Start([])]);
  }

  // ---------------------------------------------------------------- a budget too high

  /** What the overflow leaves: the tree holds block 0, which has one reference too many. */
  ghost predicate Leaked(s: Sys) {
    && s.waiting == [] && s.running == [] && s.aborted == {} && s.lost == [0] && s.nextId == 2 && s.pc == Idle && !s.fault
    && s.tree == RECORDED && s.pool == Pool([2, 0], [1])
  }

  lemma LeakSteps(cfg: Config, s: Sys, u: Sys)
    requires ConfigOk(cfg) && cfg == Plain(2, true) && Inv(cfg, s) && Funded(cfg, s) && FirstLeft(s) && Inv(cfg, u)
    requires u == Step(cfg, s, Submit([5, 7, 9], 1, 0)) && Funded(cfg, u)
    ensures Leaked(Step(cfg, u, Start([])))
  {
    hide Inv, Funded, Step, Plain;
    SubmitStep(cfg, s, [5, 7, 9], 1, 0);
    assert s.waiting + [Req(1, [5, 7, 9], [], 1, 0, Waiting, FRESH, None, 0)] == [Req(1, [5, 7, 9], [], 1, 0, Waiting, FRESH, None, 0)];
    OverflowStep(cfg, u);
  }

  lemma LeakMore(cfg: Config, acts: seq<Action>)
    requires ConfigOk(cfg) && cfg == Plain(2, true) && FirstLeft(Run(cfg, 2, acts))
    ensures Leaked(Run(cfg, 2, acts + [Submit([5, 7, 9], 1, 0)] + [Start([])]))
  {
    hide Run, Inv, Funded, Step, Plain, Leaked;
    var (s, a, b) := (Run(cfg, 2, acts), Submit([5, 7, 9], 1, 0), Start([]));
    RunMore(cfg, 2, acts, a);
    RunMore(cfg, 2, acts + [a], b);
    IdleFunded(cfg, s);
    SubmitStep(cfg, s, [5, 7, 9], 1, 0);
    IdleFunded(cfg, Run(cfg, 2, acts + [a]));
    LeakSteps(cfg, s, Run(cfg, 2, acts + [a]));
  }

  lemma RunToLeak(acts: seq<Action>)
    requires acts == [Submit([5], 2, 0), Start([]), Pass, Start([]), Pass, Submit([5, 7, 9], 1, 0), Start([])]
    ensures Leaked(Run(Plain(2, true), 2, acts))
  {
    hide Run, Leaked, FirstLeft;
    var a5 := [Submit([5], 2, 0), Start([]), Pass, Start([]), Pass];
    assert a5 + [Submit([5, 7, 9], 1, 0)] + [Start([])] == acts;
    RunToFirst(a5);
    LeakMore(Plain(2, true), a5);
  }

  function OneToken(id: nat, t: Token): Req {
    Req(id, [t], [], 1, 0, Waiting, FRESH, None, 0)
  }

  lemma OneLookup(cfg: Config, id: nat, t: Token)
    requires ConfigOk(cfg) && cfg.bs == 2
    ensures var r := OneToken(id, t);
      r.Seq() == [t] && Parked(r) && LookupKey(cfg, r) == [] && CeilDiv(|r.Seq()|, cfg.bs) == 1
    ensures Shape(RECORDED) && Find(RECORDED, []) == (ROOT, 0) && Matched(RECORDED, []) == []
    ensures Touch(RECORDED, ROOT) == RECORDED == Pinned(RECORDED, [])
  {
    RecordedIs();
    assert OneToken(id, t).Seq() == [t] && [t][..0] == [];
    var none: seq<Chunk> := [];
    assert StopsAt(RECORDED, none, ROOT, 0);
    StopUnique(RECORDED, none, ROOT, 0, Find(RECORDED, none).0, Find(RECORDED, none).1);
  }

  /** The first of two requests takes the last free block. */
  lemma FirstOfTwo(cfg: Config, s: Sys)
    requires cfg == Plain(2, true) && Budgeted(cfg, s, 1) && s.running == [] && s.tree == RECORDED && s.pool == Pool([2, 0], [1])
    requires s.waiting == [OneToken(2, 9), OneToken(3, 8)] && s.pc == Prefilling(0)
    ensures TreeOk(s.tree, Handles(s.running)) && s.waiting[0].Seq() != []
    ensures AdmitOne(cfg, s, 1) == Admitted(s.(running := [OneToken(2, 9)], waiting := [OneToken(3, 8)], pc := Prefilling(1)), 0)
  {
    hide Budgeted, Chunks, Find, Matched, AdmitOne, TreeOk, Shape, LookupKey, CeilDiv, Touch, Parked, Inv, Pinned;
    OneLookup(cfg, 2, 9);
    BudgetedCore(cfg, s, 1);
    RoomAdmits(cfg, s, 1);
    FreeNothing(s.pool);
  }

  lemma EvictRecorded()
    ensures Shape(RECORDED) && LruOk(RECORDED) && Evict(RECORDED, 1).1 == [0]
  {
    RecordedIs();
    assert LruOk(RECORDED) by {
      assert forall n :: n in RECORDED.lru <==> Evictable(RECORDED, n);
      assert [1][1..] == [];
      assert Weight(RECORDED, [1]) == 1;
    }
    EvictMore(RECORDED, 1);
    EvictDone(EvictOne(RECORDED), 0);
  }

  /** The second is admitted on block 0, which eviction reports and does not free. */
  lemma SecondOfTwo(cfg: Config, s: Sys)
    requires cfg == Plain(2, true) && TreeOk(s.tree, Handles(s.running)) && s.tree == RECORDED && s.pool == Pool([2, 0], [1])
    requires s.running == [OneToken(2, 9)] && s.waiting == [OneToken(3, 8)] && s.pc == Prefilling(1) && s.waiting[0].Seq() != []
    ensures var a := AdmitOne(cfg, s, 0);
      a.Admitted? && a.sys == s.(tree := a.sys.tree, pool := Pool([1, 0], [1]), running := [OneToken(2, 9), OneToken(3, 8)], waiting := [], pc := Prefilling(2))
  {
    hide Chunks, Find, Matched, TreeOk, Shape, LruOk, LookupKey, CeilDiv, Touch, Parked, Pinned, Evict, Free, Ref;
    OneLookup(cfg, 3, 8);
    EvictRecorded();
    GiveBack();
    FreeNothing(Pool([1, 0], [1]));
    assert Reserves(cfg, s.running) == 0;
    assert [OneToken(2, 9)] + [OneToken(3, 8)] == [OneToken(2, 9), OneToken(3, 8)];
  }

  /** Two one-token requests, one free block: both are admitted. */
  lemma UnderfundedStep(cfg: Config, s: Sys)
    requires cfg == Plain(2, true) && Inv(cfg, s) && !s.fault && s.pc == Idle && s.aborted == {} && s.running == []
    requires s.tree == RECORDED && s.pool == Pool([2, 0], [1]) && s.waiting == [OneToken(2, 9), OneToken(3, 8)]
    ensures Funded(cfg, s)
    ensures var u := Step(cfg, s, Start([]));
      u.pc == Prefilling(2) && u.running == [OneToken(2, 9), OneToken(3, 8)] && u.pool.free == [1] && !u.fault
  {
    hide Inv, Funded, Budgeted, AdmitOne, TreeOk;
    IdleFunded(cfg, s);
    var cleared := ReleaseAll(cfg, s, []).(aborted := {});
    assert cleared == s;
    StartKeeps(cfg, s);
    var begun := s.(pc := Prefilling(0));
    FirstOfTwo(cfg, begun);
    AttemptKeeps(cfg, begun, 1);
    var mid := AdmitOne(cfg, begun, 1).sys;
    BudgetedCore(cfg, mid, 0);
    SecondOfTwo(cfg, mid);
    AttemptKeeps(cfg, mid, 0);
    var a := AdmitOne(cfg, mid, 0);
    assert AdmitLoop(cfg, a.sys, a.budget) == Admission(a.sys, false);
    assert AdmitLoop(cfg, mid, 0) == AdmitLoop(cfg, a.sys, a.budget);
    assert AdmitLoop(cfg, begun, 1) == AdmitLoop(cfg, mid, 0);
  }

  lemma TwoNeed(cfg: Config, s: Sys)
    requires cfg == Plain(2, true) && s.pc == Prefilling(2) && s.running == [OneToken(2, 9), OneToken(3, 8)] && s.pool.free == [1]
    ensures Underfunded(cfg, s) && forall j :: 0 <= j < |s.running| ==> !AtLimit(cfg, s.running[j], false)
  {
    var rs := s.running;
    assert rs[|rs| - 2..] == rs && rs[1..] == [OneToken(3, 8)] && rs[1..][1..] == [];
    assert rs[0].Seq() == [9] && rs[1].Seq() == [8];
    assert Need(cfg, rs) == NeedOf(cfg, rs[0]) + (NeedOf(cfg, rs[1]) + Need(cfg, []));
  }

  lemma TwoMore(cfg: Config, s: Sys, u: Sys)
    requires ConfigOk(cfg) && Inv(cfg, s) && Funded(cfg, s) && Leaked(s)
    requires u == Step(cfg, s, Submit([9], 1, 0)) && Funded(cfg, u) && !u.fault
    ensures Step(cfg, u, Submit([8], 1, 0)) == s.(waiting := [OneToken(2, 9), OneToken(3, 8)], nextId := 4)
  {
    hide Inv, Funded, Step;
    SubmitStep(cfg, s, [9], 1, 0);
    SubmitStep(cfg, u, [8], 1, 0);
    assert s.waiting + [OneToken(2, 9)] + [OneToken(3, 8)] == [OneToken(2, 9), OneToken(3, 8)];
  }

  /** Two more requests wait. */
  lemma RunToTwo(cfg: Config, acts: seq<Action>)
    requires ConfigOk(cfg) && Leaked(Run(cfg, 2, acts))
    ensures Run(cfg, 2, acts + [Submit([9], 1, 0)] + [Submit([8], 1, 0)])
      == Run(cfg, 2, acts).(waiting := [OneToken(2, 9), OneToken(3, 8)], nextId := 4)
  {
    hide Run, Inv, Funded, Step;
    var (s, a, b) := (Run(cfg, 2, acts), Submit([9], 1, 0), Submit([8], 1, 0));
    RunMore(cfg, 2, acts, a);
    RunMore(cfg, 2, acts + [a], b);
    IdleFunded(cfg, s);
    SubmitStep(cfg, s, [9], 1, 0);
    IdleFunded(cfg, Run(cfg, 2, acts + [a]));
    TwoMore(cfg, s, Run(cfg, 2, acts + [a]));
  }

  /** Once a reference is lost, eviction can make the budget too high: a batch within all limits lacks a block. */
  lemma UnderfundedRun()
    ensures var acts := [Submit([5], 2, 0), Start([]), Pass, Start([]), Pass, Submit([5, 7, 9], 1, 0), Start([])]
                        + [Submit([9], 1, 0)] + [Submit([8], 1, 0)] + [Start([])];
      var s := Run(Plain(2, true), 2, acts);
      !s.fault && Underfunded(Plain(2, true), s) && forall j :: 0 <= j < |s.running| ==> !AtLimit(Plain(2, true), s.running[j], false)
  {
    var cfg := Plain(2, true);
    var a7 := [Submit([5], 2, 0), Start([]), Pass, Start([]), Pass, Submit([5, 7, 9], 1, 0), Start([])];
    var a9 := a7 + [Submit([9], 1, 0)] + [Submit([8], 1, 0)];
    RunMore(cfg, 2, a9, Start([]));
    hide Run, Inv, Funded, Step, Underfunded, AtLimit;
    RunToLeak(a7);
    RunToTwo(cfg, a7);
    UnderfundedStep(cfg, Run(cfg, 2, a9));
    TwoNeed(cfg, Run(cfg, 2, a9 + [Start([])]));
  }

  /** A tick with one request running and a block free starts a decode. */
  lemma DecodeStart(cfg: Config, s: Sys)
    requires ConfigOk(cfg) && Inv(cfg, s) && s.pc.Idle? && !s.fault && s.aborted == {} && s.waiting == []
    requires |s.running| == 1 && s.pool.free != []
    ensures Funded(cfg, s) && Step(cfg, s, Start([])) == s.(pc := Decoding)
  {
    hide Inv, Funded;
    IdleFunded(cfg, s);
    QuietTick(cfg, s);
  }

  lemma SubmitStep(cfg: Config, s: Sys, prompt: seq<Token>, maxTokens: int, eos: Token)
    requires ConfigOk(cfg) && Inv(cfg, s) && Funded(cfg, s) && !s.fault && prompt != []
    ensures Step(cfg, s, Submit(prompt, maxTokens, eos))
      == s.(waiting := s.waiting + [Req(s.nextId, prompt, [], maxTokens, eos, Waiting, FRESH, None, 0)], nextId := s.nextId + 1)
  {}

  // ---------------------------------------------------------------- a token recorded but never computed

  /** As before, but the model repeats the cell of the second token once there is one. */
  function Echo(): Config {
    Config(2, 8, true, false, false, (n: int) => 0, (ctx: seq<Cell>, t: Token) => t + 1,
           (ctx: seq<Cell>) => if |ctx| >= 2 then ctx[1] else 7)
  }

  const ZEROS: seq<seq<Cell>> := [[0, 0], [0, 0]]

  lemma WriteFive()
    ensures WriteToks(Echo(), ZEROS, [0], 0, [5]) == [[6, 0], [0, 0]]
    ensures Gather([[6, 0], [0, 0]], [0], 1, 2) == [6]
  {
    var cfg := Echo();
    var m := SetCell(ZEROS, [0], 0, 2, 6);
    assert m == [[6, 0], [0, 0]] by { assert [0, 0][0 := 6] == [6, 0]; }
    var toks: seq<Token> := [5];
    assert toks[1..] == [];
    assert WriteToks(cfg, ZEROS, [0], 0, toks) == WriteToks(cfg, m, [0], 1, toks[1..]) == m;
  }

  /** First request: `[5]` answers 7 and leaves at once; the cell of the 7 was never written. */
  lemma EchoStepped(cfg: Config, s: Sys)
    requires cfg == Echo() && s.pc == Prefilling(1) && s.pool == NewPool(2) && s.mem == ZEROS
    requires s.running == [Req(0, [5], [], 1, 99, Waiting, FRESH, None, 0)]
    ensures PrepOf(cfg, s, 0, false).ok
    ensures Stepped(cfg, s) == s.(pool := Pool([1, 0], [1]), mem := [[6, 0], [0, 0]], pc := Idle,
                                  running := [Req(0, [5], [7], 1, 99, Finished, Kv(1, [0], true, false), None, 0)])
  {
    hide WriteToks, Gather;
    var r := s.running[0];
    assert r.Seq() == [5];
    TakeFirst();
    var p := PrepOf(cfg, s, 0, false);
    assert p.kv == Kv(1, [0], true, false);
    var q := r.(kv := p.kv);
    assert q.Seq() == [5] && NewToks(cfg, q, false) == [5] && From(cfg, q, false) == 0;
    WriteFive();
    var none: seq<Token> := [];
    assert none + [7] == [7];
  }

  lemma EchoRecord(cfg: Config, s: Sys)
    requires cfg == Echo() && Safe(cfg, s) && s.tree == EMPTY && s.pool == Pool([1, 0], [1])
    requires s.running == [Req(0, [5], [7], 1, 99, Finished, Kv(1, [0], true, false), None, 0)] && Ready(cfg, s.running[0])
    ensures Shape(s.tree) && !Faults(cfg, s, 0)
    ensures FinishAt(cfg, s, 0)
      == s.(done := s.done + [Ended(Req(0, [5], [7], 1, 99, Finished, FRESH, None, 0), true)], tree := RECORDED, running := [])
  {
    hide Safe, Ready, Chunks, Insert, Find, Walk, Ref, Free, Known, DivergesMidBlock, Shape;
    RecordedIs();
    ShortChunks();
    GiveBack();
    var r := s.running[0];
    assert r.Seq() == [5, 7];
    assert RecordKey(cfg, r) == [[5, 7]];
    assert [0][0..1] == [0];
    SafeShape(cfg, s, 0);
    FinishDefined(cfg, s, 0);
  }

  lemma EchoPass(cfg: Config, s: Sys)
    requires cfg == Echo() && Inv(cfg, s) && Funded(cfg, s) && !s.fault && s.pc == Prefilling(1) && s.tree == EMPTY
    requires s.running == [Req(0, [5], [], 1, 99, Waiting, FRESH, None, 0)] && s.pool == NewPool(2) && s.mem == ZEROS && s.done == []
    ensures Step(cfg, s, Pass) == s.(pool := Pool([1, 0], [1]), mem := [[6, 0], [0, 0]], tree := RECORDED, running := [], pc := Idle,
                                     done := [Ended(Req(0, [5], [7], 1, 99, Finished, FRESH, None, 0), true)])
  {
    hide Inv, Funded, PrepOf, Stepped, FinishAt, Faults, Safe, Ready, Shape;
    EchoStepped(cfg, s);
    SteppedSafe(cfg, s);
    EchoRecord(cfg, Stepped(cfg, s));
    SoloFinish(cfg, s);
  }

  /** What the first request leaves behind: the tree names a block whose second cell is wrong. */
  ghost predicate EchoLeft(s: Sys) {
    && s.waiting == [] && s.running == [] && s.aborted == {} && s.lost == [] && s.nextId == 1 && s.pc == Idle && !s.fault
    && s.tree == RECORDED && s.pool == Pool([1, 0], [1]) && s.mem == [[6, 0], [0, 0]] && |s.done| == 1
  }

  lemma RunToWrong(acts: seq<Action>)
    requires acts == [Submit([5], 1, 99), Start([]), Pass]
    ensures EchoLeft(Run(Echo(), 2, acts))
  {
    var cfg := Echo();
    var a2 := [Submit([5], 1, 99), Start([])];
    assert a2 + [Pass] == acts;
    FirstAdmitted(cfg, 2, [5], 1, 99);
    NewZeros(cfg);
    RunMore(cfg, 2, a2, Pass);
    hide Run, Inv, Funded, Step;
    EchoPass(cfg, Run(cfg, 2, a2));
  }

  lemma NewZeros(cfg: Config)
    requires cfg == Echo()
    ensures NewSys(cfg, 2).mem == ZEROS
  {
    assert seq(2, _ => 0) == [0, 0];
  }

  /** Sharing as written leaves a wrong block in the tree: one prompt token, one generated token. */
  lemma WrongTreeRun()
    ensures var acts := [Submit([5], 1, 99), Start([]), Pass]; var s := Run(Echo(), 2, acts);
      !s.fault && !ContentTree(Echo(), s.mem, s.tree)
  {
    var cfg := Echo();
    var acts := [Submit([5], 1, 99), Start([]), Pass];
    RunToWrong(acts);
    hide Run;
    var s := Run(cfg, 2, acts);
    RecordedHolds();
    Cells();
    var x: seq<Chunk> := [[5, 7]];
    assert Flat(x) == Flat(x[..0]) + x[0] == [5, 7] by { assert x[..0] == []; }
    assert [6, 8][0..] == [6, 8];
    assert !BlockHolds(cfg, s.mem, x, 0);
  }

  lemma RecordedHolds()
    ensures Entry(RECORDED, [[5, 7]], 0)
  {
    var x: seq<Chunk> := [[5, 7]];
    assert Covers(RECORDED, 1, x) && EntryAt(RECORDED, 1, x, 0);
  }

  lemma Cells()
    ensures Correct(Echo(), [5, 7]) == [6, 8] && Correct(Echo(), [5, 7, 9]) == [6, 8, 10]
  {
    var cfg := Echo();
    var none: seq<Token> := [];
    assert [5][..0] == none && [5, 7][..1] == [5] && [5, 7, 9][..2] == [5, 7];
    assert Correct(cfg, none) == [];
    assert Correct(cfg, [5]) == [6];
  }

  // ---------------------------------------------------------------- and a wrong answer

  /** The second request adopts the wrong block. */
  lemma EchoJoin(cfg: Config, s: Sys)
    requires cfg == Echo() && Inv(cfg, s) && !s.fault && s.pc == Idle && s.aborted == {}
    requires s.waiting == [Req(1, [5, 7, 9], [], 1, 99, Waiting, FRESH, None, 0)] && s.running == []
    requires s.tree == RECORDED && s.pool == Pool([1, 0], [1])
    ensures Funded(cfg, s)
    ensures var u := Step(cfg, s, Start([]));
      u == s.(tree := Pin(RECORDED, 1), pool := Pool([2, 0], [1]), pc := Prefilling(1), waiting := [],
              running := [Req(1, [5, 7, 9], [], 1, 99, Waiting, Kv(2, [0], true, true), Some(1), 1)])
  {
    hide Inv, Funded, Chunks, Find, Matched, Pin, Ref, LookupKey, CeilDiv, Shape, Parked, Tick, Touch;
    IdleFunded(cfg, s);
    SecondLookup(cfg, s.waiting[0]);
    SoloTick(cfg, s);
    GiveBack();
    assert s.running + [Req(1, [5, 7, 9], [], 1, 99, Waiting, Kv(2, [0], true, true), Some(1), 1)]
      == [Req(1, [5, 7, 9], [], 1, 99, Waiting, Kv(2, [0], true, true), Some(1), 1)];
  }

  lemma WriteNine()
    ensures WriteToks(Echo(), [[6, 0], [0, 0]], [0, 1], 2, [9]) == [[6, 0], [10, 0]]
    ensures Gather([[6, 0], [10, 0]], [0, 1], 3, 2) == [6, 0, 10]
  {
    var cfg, mem := Echo(), [[6, 0], [0, 0]];
    var m := SetCell(mem, [0, 1], 2, 2, 10);
    assert m == [[6, 0], [10, 0]] by { assert [0, 0][0 := 10] == [10, 0]; }
    var toks: seq<Token> := [9];
    assert toks[1..] == [];
    assert WriteToks(cfg, mem, [0, 1], 2, toks) == WriteToks(cfg, m, [0, 1], 3, toks[1..]) == m;
    assert CellAt(m, [0, 1], 0, 2) == 6 && CellAt(m, [0, 1], 1, 2) == 0 && CellAt(m, [0, 1], 2, 2) == 10;
  }

  lemma TakeSecond()
    ensures Pool([2, 0], [1]).free[..1] == [1] && Alloc(Pool([2, 0], [1]), 1) == Pool([2, 1], [])
  {
    var p := Pool([2, 0], [1]);
    assert p.free[..1] == [1] && p.free[1..] == [];
    assert Alloc(p, 1).ref == [2, 1];
  }

  lemma WrongStepped(cfg: Config, s: Sys)
    requires cfg == Echo() && s.pc == Prefilling(1) && s.pool == Pool([2, 0], [1]) && s.mem == [[6, 0], [0, 0]]
    requires s.running == [Req(1, [5, 7, 9], [], 1, 99, Waiting, Kv(2, [0], true, true), Some(1), 1)]
    ensures PrepOf(cfg, s, 0, false).ok
    ensures Stepped(cfg, s) == s.(pool := Pool([2, 1], []), mem := [[6, 0], [10, 0]], pc := Idle,
                                  running := [Req(1, [5, 7, 9], [0], 1, 99, Finished, Kv(3, [0, 1], true, true), Some(1), 1)])
  {
    hide WriteToks, Gather;
    var r := s.running[0];
    assert r.Seq() == [5, 7, 9];
    TakeSecond();
    var p := PrepOf(cfg, s, 0, false);
    assert [0] + [1] == [0, 1];
    assert p.kv == Kv(3, [0, 1], true, true);
    var q := r.(kv := p.kv);
    assert q.Seq() == [5, 7, 9] && From(cfg, q, false) == 2;
    assert NewToks(cfg, q, false) == [9];
    WriteNine();
    var none: seq<Token> := [];
    assert none + [0] == [0];
  }

  /** Its last key leaves the node `[5, 7]` cleanly. */
  lemma WrongKey(t: Tree)
    requires t == Pin(RECORDED, 1) && Shape(t)
    ensures Chunks([5, 7, 9, 0], 2) == [[5, 7], [9, 0]] && !DivergesMidBlock(t, [[5, 7], [9, 0]])
  {
    assert ChunkAt([5, 7, 9, 0], 2, 0) == [5, 7] && ChunkAt([5, 7, 9, 0], 2, 1) == [9, 0];
    var x: seq<Chunk> := [[5, 7], [9, 0]];
    assert t.nodes[1].path == [[5, 7]] && t.nodes[1].children == map[];
    assert x[..1] == [[5, 7]];
    assert StopsAt(t, x, 1, 1);
    StopUnique(t, x, 1, 1, Find(t, x).0, Find(t, x).1);
  }

  lemma WrongRecord(cfg: Config, s: Sys)
    requires cfg == Echo() && Safe(cfg, s) && s.tree == Pin(RECORDED, 1)
    requires s.running == [Req(1, [5, 7, 9], [0], 1, 99, Finished, Kv(3, [0, 1], true, true), Some(1), 1)] && Ready(cfg, s.running[0])
    ensures Shape(s.tree) && !Faults(cfg, s, 0)
    ensures FinishAt(cfg, s, 0).done == s.done + [Ended(Req(1, [5, 7, 9], [0], 1, 99, Finished, FRESH, None, 0), true)]
    ensures FinishAt(cfg, s, 0).fault == s.fault
  {
    hide Safe, Ready, Chunks, Insert, Find, Walk, Ref, Free, Known, DivergesMidBlock, Shape, UnpinOf, Pin;
    SafeShape(cfg, s, 0);
    FinishDefined(cfg, s, 0);
    var r := s.running[0];
    assert r.Seq() == [5, 7, 9, 0];
    WrongKey(s.tree);
    assert RecordKey(cfg, r) == [[5, 7], [9, 0]];
  }

  lemma WrongPass(cfg: Config, s: Sys)
    requires cfg == Echo() && Inv(cfg, s) && Funded(cfg, s) && !s.fault && s.pc == Prefilling(1) && s.tree == Pin(RECORDED, 1)
    requires s.pool == Pool([2, 0], [1]) && s.mem == [[6, 0], [0, 0]]
    requires s.running == [Req(1, [5, 7, 9], [], 1, 99, Waiting, Kv(2, [0], true, true), Some(1), 1)]
    ensures Step(cfg, s, Pass).done == s.done + [Ended(Req(1, [5, 7, 9], [0], 1, 99, Finished, FRESH, None, 0), true)]
    ensures !Step(cfg, s, Pass).fault
  {
    hide Inv, Funded, PrepOf, Stepped, FinishAt, Faults, Safe, Ready, Shape, Pin;
    WrongStepped(cfg, s);
    SteppedSafe(cfg, s);
    WrongRecord(cfg, Stepped(cfg, s));
    SoloFinish(cfg, s);
  }

  /** Sharing as written changes an answer: alone the prompt `[5, 7, 9]` answers 8, after `[5]` it answers 0. */
  lemma WrongAnswerRun()
    ensures var acts := [Submit([5], 1, 99), Start([]), Pass, Submit([5, 7, 9], 1, 99), Start([]), Pass];
      var s := Run(Echo(), 2, acts);
      && !s.fault && |s.done| == 2 && s.done[1].normal
      && s.done[1].req.gen == [0] && Answer(Echo(), s.done[1].req) == [8]
  {
    var cfg := Echo();
    var a3 := [Submit([5], 1, 99), Start([]), Pass];
    var a4 := a3 + [Submit([5, 7, 9], 1, 99)];
    var a5 := a4 + [Start([])];
    assert a5 + [Pass] == [Submit([5], 1, 99), Start([]), Pass, Submit([5, 7, 9], 1, 99), Start([]), Pass];
    RunMore(cfg, 2, a3, Submit([5, 7, 9], 1, 99));
    RunMore(cfg, 2, a4, Start([]));
    RunMore(cfg, 2, a5, Pass);
    hide Run, Inv, Funded, Step, Pin;
    RunToWrong(a3);
    IdleFunded(cfg, Run(cfg, 2, a3));
    SubmitStep(cfg, Run(cfg, 2, a3), [5, 7, 9], 1, 99);
    EchoJoin(cfg, Run(cfg, 2, a4));
    WrongPass(cfg, Run(cfg, 2, a5));
    AloneAnswers(cfg);
  }

  lemma AloneAnswers(cfg: Config)
    requires cfg == Echo()
    ensures Isolated(cfg, [5, 7, 9], [], 1, 99) == [8]
  {
    Cells();
    var none: seq<Token> := [];
    assert [5, 7, 9] + none == [5, 7, 9];
    assert none + [8] == [8];
  }
}
