/**
 Runs that keep the contract. Without prefix sharing, or when leaves are cut at whole blocks, no
 part-block leaf ever arises; and when every request fits the context no reference is ever lost.
 */
module ServingFaultless {
  import opened Basics
  import opened Tokens
  import opened PoolSpec
  import opened CacheSpec
  import opened RadixSpec
  import opened RadixUpdate
  import opened RadixInsertEvict
  import opened ServingState
  import opened ServingCore
  import opened Serving
  import opened ServingAdmit
  import opened ServingForward
  import opened ServingRun
  import opened ServingTheorems
  import opened ServingDepartures

  /** The longest sequence a request can have when it waits for a (re)prefill. */
  function Longest(prompt: seq<Token>, maxTokens: int): int {
    |prompt| + if maxTokens > 1 then maxTokens - 1 else 0
  }

  /** A request that has not finished has room for one more token. */
  predicate Roomy(r: Req) {
    r.phase == Finished || r.gen == [] || |r.gen| < r.maxTokens
  }

  predicate Short(cfg: Config, r: Req) {
    !cfg.useRadix || (Longest(r.prompt, r.maxTokens) <= cfg.maxLen && Roomy(r))
  }

  ghost predicate AllShort(cfg: Config, s: Sys) {
    && (forall i {:trigger s.waiting[i]} :: 0 <= i < |s.waiting| ==> Short(cfg, s.waiting[i]))
    && (forall i {:trigger s.running[i]} :: 0 <= i < |s.running| ==> Short(cfg, s.running[i]))
  }

  // ---------------------------------------------------------------- lengths

  lemma ShortQueue(cfg: Config, s: Sys)
    requires ConfigOk(cfg) && Safe(cfg, s) && AllShort(cfg, s)
    ensures QueueFits(cfg, s)
  {
    hide Core;
    if cfg.useRadix {
      forall i {:trigger s.waiting[i]} | 0 <= i < |s.waiting| ensures |s.waiting[i].Seq()| <= cfg.maxLen {
        assert Short(cfg, s.waiting[i]) && Parked(s.waiting[i]);
      }
    }
  }

  lemma InvShortQueue(cfg: Config, s: Sys)
    requires ConfigOk(cfg) && Inv(cfg, s) && AllShort(cfg, s)
    ensures QueueFits(cfg, s)
  {
    ShortQueue(cfg, s);
  }

  // ---------------------------------------------------------------- what every operation keeps

  lemma DropShort(cfg: Config, s: Sys, i: nat)
    requires i < |s.running| && (s.running[i].pin.Some? ==> s.running[i].pin.value in s.tree.nodes) && AllShort(cfg, s)
    ensures AllShort(cfg, DropRunning(s, i))
  {
    hide Short, DropRunning;
    DropFrame(s, i);
  }

  lemma ReleaseShort(cfg: Config, s: Sys, id: nat)
    requires ConfigOk(cfg) && Inv(cfg, s) && s.pc.Idle? && AllShort(cfg, s)
    ensures AllShort(cfg, Release(cfg, s, id))
  {
    hide Inv, AllShort, DropRunning, ReleaseWaiting;
    var i, j := Index(s.running, id), Index(s.waiting, id);
    if i >= 0 {
      ReleaseRunningKeeps(cfg, s, i);
      DropShort(cfg, s, i);
      ShortSame(cfg, DropRunning(s, i), ReleaseRunning(s, i));
    } else if j >= 0 {
      ReleaseWaitingShort(cfg, s, j);
    }
  }

  lemma ReleaseWaitingShort(cfg: Config, s: Sys, i: nat)
    requires i < |s.waiting| && AllShort(cfg, s)
    ensures AllShort(cfg, ReleaseWaiting(s, i))
  {
    hide Short;
  }

  lemma {:induction false} ReleaseAllShort(cfg: Config, s: Sys, ids: seq<nat>)
    requires ConfigOk(cfg) && Inv(cfg, s) && s.pc.Idle? && AllShort(cfg, s)
    ensures AllShort(cfg, ReleaseAll(cfg, s, ids))
    decreases ids
  {
    hide Inv, AllShort, Release;
    if ids != [] {
      ReleaseShort(cfg, s, ids[0]);
      ReleaseAllShort(cfg, Release(cfg, s, ids[0]), ids[1..]);
    }
  }

  lemma AdmitShort(cfg: Config, s: Sys, budget: int)
    requires ConfigOk(cfg) && TreeOk(s.tree, Handles(s.running)) && s.pc.Prefilling? && AllShort(cfg, s)
    requires s.waiting != [] && s.waiting[0].Seq() != [] && !AdmitOne(cfg, s, budget).Overflow?
    ensures AllShort(cfg, AdmitOne(cfg, s, budget).sys) && AdmitOne(cfg, s, budget).sys.lost == s.lost
  {
    hide TreeOk, Shape, LruOk, Evict, Free, Ref, Find, Walk, Matched, Pinned, Chunks, CeilDiv, Pin, Unpin, Without;
  }

  lemma {:induction false} AdmitLoopShort(cfg: Config, s: Sys, budget: int)
    requires ConfigOk(cfg) && Budgeted(cfg, s, budget) && AllShort(cfg, s) && !AdmitLoop(cfg, s, budget).broken
    ensures AllShort(cfg, AdmitLoop(cfg, s, budget).sys) && AdmitLoop(cfg, s, budget).sys.lost == s.lost
    decreases |s.waiting|
  {
    hide Budgeted, Inv, Funded, TreeOk, Core, Shape, AdmitOne, Parked, AllShort, Safe;
    BudgetedCore(cfg, s, budget);
    if s.waiting != [] {
      AttemptShape(cfg, s, budget);
      AttemptKeeps(cfg, s, budget);
      var a := AdmitOne(cfg, s, budget);
      if !a.Overflow? {
        AdmitShort(cfg, s, budget);
        if a.Admitted? { AdmitLoopShort(cfg, a.sys, a.budget); }
      }
    }
  }

  lemma PreemptLastShort(cfg: Config, s: Sys)
    requires s.running != [] && (s.running[|s.running| - 1].pin.Some? ==> s.running[|s.running| - 1].pin.value in s.tree.nodes)
    requires AllShort(cfg, s) && s.running[|s.running| - 1].phase == Running
    ensures AllShort(cfg, PreemptLast(s))
  {
    hide DropRunning;
    var i := |s.running| - 1;
    DropFrame(s, i);
    assert Short(cfg, s.running[i]);
    assert Short(cfg, Cleared(s.running[i], Waiting));
    hide Short;
    DropShort(cfg, s, i);
  }

  lemma {:induction false} PreemptShort(cfg: Config, s: Sys)
    requires ConfigOk(cfg) && Inv(cfg, s) && s.pc.Idle? && AllShort(cfg, s)
    ensures AllShort(cfg, PreemptLoop(cfg, s)) && PreemptLoop(cfg, s).lost == s.lost
    decreases |s.running|
  {
    hide Inv, AllShort, DropRunning;
    if |s.pool.free| < |s.running| {
      LastRuns(cfg, s);
      PreemptKeeps(cfg, s);
      PreemptLastShort(cfg, s);
      DropFrame(s, |s.running| - 1);
      PreemptShort(cfg, PreemptLast(s));
    }
  }

  lemma {:induction false} PrepareShort(cfg: Config, s: Sys, i: nat, upto: nat, decode: bool)
    requires ConfigOk(cfg) && upto <= |s.running| && AllShort(cfg, s)
    ensures AllShort(cfg, PrepareFrom(cfg, s, i, upto, decode).1)
    decreases upto - i
  {
    hide PrepareMeta;
    if i < upto && PrepOf(cfg, s, i, decode).ok { PrepareShort(cfg, WithPrep(cfg, s, i, decode), i + 1, upto, decode); }
  }

  lemma SampledShort(cfg: Config, s: Sys, i: nat, t: Token)
    requires AllShort(cfg, s) && i < |s.running|
    ensures AllShort(cfg, s.(running := s.running[i := Sampled(cfg, s.running[i], t)]))
  {
    assert Short(cfg, s.running[i]);
    assert Short(cfg, Sampled(cfg, s.running[i], t));
    hide Short, Sampled;
  }

  lemma {:induction false} SampleShort(cfg: Config, s: Sys, i: nat)
    requires ConfigOk(cfg) && AllShort(cfg, s)
    ensures AllShort(cfg, SampleFrom(cfg, s, i))
    decreases |s.running| - i
  {
    hide Gather, AllShort, Sampled;
    if i < |s.running| {
      SampledShort(cfg, s, i, cfg.next(Gather(s.mem, s.running[i].kv.table, s.running[i].kv.cursor, cfg.bs)));
      SampleShort(cfg, s.(running := s.running[i := SampleReq(cfg, s.mem, s.running[i])]), i + 1);
    }
  }

  lemma FinishAtShort(cfg: Config, s: Sys, i: nat)
    requires ConfigOk(cfg) && Safe(cfg, s) && i < |s.running| && Ready(cfg, s.running[i]) && AllShort(cfg, s)
    ensures AllShort(cfg, FinishAt(cfg, s, i))
  {
    hide FinishAt, Safe, Ready;
    FinishSafe(cfg, s, i);
    FinishWaiting(cfg, s, i);
  }

  lemma FinishWaiting(cfg: Config, s: Sys, i: nat)
    requires ConfigOk(cfg) && Safe(cfg, s) && i < |s.running| && Ready(cfg, s.running[i])
    ensures FinishAt(cfg, s, i).waiting == s.waiting
    ensures FinishAt(cfg, s, i).running == s.running || FinishAt(cfg, s, i).running == s.running[..i] + s.running[i + 1..]
  {
    hide Safe, Ready, Insert, Ref, Free, UnpinOf, Faults;
    SafeShape(cfg, s, i);
    FinishDefined(cfg, s, i);
  }

  lemma {:induction false} FinishFromShort(cfg: Config, s: Sys, i: nat)
    requires ConfigOk(cfg) && Finishing(cfg, s, i) && !s.fault && AllShort(cfg, s)
    ensures AllShort(cfg, FinishFrom(cfg, s, i))
    decreases |s.running| - i
  {
    hide Finishing, Inv, FinishAt, Ready, AllShort;
    FinishBounds(cfg, s, i);
    if i < |s.running| {
      FinishStep(cfg, s, i);
      if s.running[i].phase != Finished {
        FinishFromShort(cfg, s, i + 1);
      } else {
        FinishingSafe(cfg, s, i);
        FinishAtShort(cfg, s, i);
        if Faults(cfg, s, i) {
          ShortSame(cfg, s, s.(fault := true));
        } else {
          FinishFromShort(cfg, FinishAt(cfg, s, i), i);
        }
      }
    }
  }

  lemma ShortSame(cfg: Config, s: Sys, u: Sys)
    requires AllShort(cfg, s) && u.waiting == s.waiting && u.running == s.running
    ensures AllShort(cfg, u)
  {}

  lemma ShortEmpty(cfg: Config, s: Sys)
    requires s.waiting == [] && s.running == []
    ensures AllShort(cfg, s)
  {}

  // ---------------------------------------------------------------- no lost references

  lemma TickShort(cfg: Config, s: Sys, order: seq<nat>)
    requires ConfigOk(cfg) && Inv(cfg, s) && s.pc.Idle? && AllShort(cfg, s)
    ensures AllShort(cfg, Tick(cfg, s, order)) && Tick(cfg, s, order).lost == s.lost
  {
    hide Inv, Budgeted, AllShort, QueueFits, Safe;
    var released := ReleaseAll(cfg, s, order);
    ReleaseAllShort(cfg, s, order);
    ReleaseAllLost(cfg, s, order);
    var cleared := released.(aborted := {});
    AbortedKeeps(cfg, released);
    StartKeeps(cfg, cleared);
    ShortSame(cfg, released, cleared);
    InvShortQueue(cfg, cleared);
    var begun := cleared.(pc := Prefilling(0));
    ShortSame(cfg, cleared, begun);
    QueueSame(cfg, cleared, begun);
    AdmitLoopFits(cfg, begun, |begun.pool.free|);
    AdmitLoopShort(cfg, begun, |begun.pool.free|);
    var u := AdmitLoop(cfg, begun, |begun.pool.free|).sys;
    if u.pc.k == 0 {
      PcKeeps(cfg, u, Idle);
      var idle := u.(pc := Idle);
      ShortSame(cfg, u, idle);
      if idle.running != [] {
        PreemptShort(cfg, idle);
        ShortSame(cfg, PreemptLoop(cfg, idle), PreemptLoop(cfg, idle).(pc := Decoding));
      }
    }
  }

  lemma QueueSame(cfg: Config, s: Sys, u: Sys)
    requires QueueFits(cfg, s) && u.waiting == s.waiting
    ensures QueueFits(cfg, u)
  {}

  lemma ForwardedShort(cfg: Config, s: Sys)
    requires ConfigOk(cfg) && AllShort(cfg, s) && 0 <= BatchStart(s) <= |s.running|
    ensures AllShort(cfg, Forwarded(cfg, s))
  {
    hide AllShort, PrepareFrom, SampleFrom, WriteBatch;
    var i := BatchStart(s);
    PrepareShort(cfg, s, i, |s.running|, s.pc.Decoding?);
    var u := PrepareFrom(cfg, s, i, |s.running|, s.pc.Decoding?).1;
    if i <= |u.running| {
      var w := u.(mem := WriteBatch(cfg, u.mem, u.running[i..], s.pc.Decoding?));
      ShortSame(cfg, u, w);
      SampleShort(cfg, w, i);
      ShortSame(cfg, SampleFrom(cfg, w, i), SampleFrom(cfg, w, i).(pc := Idle));
    }
  }

  lemma ForwardShort(cfg: Config, s: Sys)
    requires ConfigOk(cfg) && Inv(cfg, s) && Funded(cfg, s) && !s.pc.Idle? && !s.fault && AllShort(cfg, s)
    ensures AllShort(cfg, Forward(cfg, s))
  {
    hide Inv, Funded, Finishing, Safe, PrepareFrom, Forwarded, AllShort, FinishFrom;
    BatchFresh(cfg, s);
    PrepareAll(cfg, s, BatchStart(s), BatchStart(s), |s.running|, s.pc.Decoding?);
    var (ok, prepared) := PrepareFrom(cfg, s, BatchStart(s), |s.running|, s.pc.Decoding?);
    if !ok || s.running == [] {
      ShortEmpty(cfg, FailAll(cfg, prepared));
    } else {
      ForwardedFinishing(cfg, s);
      ForwardedShort(cfg, s);
      FinishFromShort(cfg, Forwarded(cfg, s), 0);
      ShortSame(cfg, s, s.(fault := true));
    }
  }

  /** Submissions that fit the context; without sharing, any submission. */
  predicate FittingAction(cfg: Config, a: Action) {
    a.Submit? && cfg.useRadix ==> Longest(a.prompt, a.maxTokens) <= cfg.maxLen
  }

  lemma SubmitShort(cfg: Config, s: Sys, r: Req)
    requires AllShort(cfg, s) && Short(cfg, r)
    ensures AllShort(cfg, s.(waiting := s.waiting + [r], nextId := s.nextId + 1))
  {
    hide Short;
  }

  lemma StepShort(cfg: Config, s: Sys, a: Action)
    requires ConfigOk(cfg) && FittingAction(cfg, a)
    requires Inv(cfg, s) && (s.fault || Funded(cfg, s)) && AllShort(cfg, s)
    ensures AllShort(cfg, Step(cfg, s, a)) && Step(cfg, s, a).lost == s.lost
  {
    hide Inv, Funded, Tick, Forward, Crash, AllShort, LostBy;
    StepLost(cfg, s, a);
    if !s.fault {
      match a
      case Submit(prompt, maxTokens, eos) =>
        if prompt != [] { SubmitShort(cfg, s, NewReq(s, prompt, maxTokens, eos)); }
      case Abort(id) =>
        ShortSame(cfg, s, s.(aborted := s.aborted + {id}));
      case Start(order) =>
        if s.pc.Idle? { TickShort(cfg, s, order); }
      case Pass =>
        if !s.pc.Idle? { ForwardShort(cfg, s); }
      case Fail(k, junk) =>
        if !s.pc.Idle? {
          CrashEmpty(cfg, s, k, junk);
          ShortEmpty(cfg, Crash(cfg, s, k, junk));
        }
    }
  }

  lemma CrashEmpty(cfg: Config, s: Sys, k: nat, junk: (nat, nat) -> Cell)
    requires ConfigOk(cfg) && Inv(cfg, s) && Funded(cfg, s) && !s.pc.Idle?
    ensures Crash(cfg, s, k, junk).running == [] && Crash(cfg, s, k, junk).waiting == [] && Crash(cfg, s, k, junk).fault == s.fault
  {
    hide Inv, Funded, Safe, PrepareFrom, JunkBatch;
    BatchFresh(cfg, s);
    var i := BatchStart(s);
    var upto := if i + k <= |s.running| then i + k else |s.running|;
    PrepareAll(cfg, s, i, i, upto, s.pc.Decoding?);
    var u := PrepareFrom(cfg, s, i, upto, s.pc.Decoding?).1;
    var mem := JunkBatch(cfg, u.mem, u.running[i..], s.pc.Decoding?, junk);
    PreparingSafe(cfg, u, i, upto, s.pc.Decoding?, mem);
    FailAllFault(cfg, u.(mem := mem));
  }

  /** When every submission fits the context, or sharing is off, no reference is ever lost. */
  lemma {:induction false} NeverLoses(cfg: Config, n: nat, acts: seq<Action>)
    requires ConfigOk(cfg) && forall i :: 0 <= i < |acts| ==> FittingAction(cfg, acts[i])
    ensures Run(cfg, n, acts).lost == [] && AllShort(cfg, Run(cfg, n, acts))
    decreases |acts|
  {
    hide Inv, Funded, Step, AllShort, FittingAction;
    if acts == [] {
      NewSysInv(cfg, n);
      ShortEmpty(cfg, NewSys(cfg, n));
    } else {
      var before := acts[..|acts| - 1];
      NeverLoses(cfg, n, before);
      StepShort(cfg, Run(cfg, n, before), acts[|acts| - 1]);
    }
  }

  // ---------------------------------------------------------------- no part-block leaf

  /** Sharing is off, or leaves are cut at whole blocks. */
  predicate Contractual(cfg: Config) {
    !cfg.useRadix || cfg.floored
  }

  lemma {:induction false} AdmitLoopFault(cfg: Config, s: Sys, budget: int)
    requires ConfigOk(cfg) && Budgeted(cfg, s, budget)
    ensures AdmitLoop(cfg, s, budget).sys.fault == s.fault
    decreases |s.waiting|
  {
    hide Budgeted, Inv, Funded, TreeOk, Core, Shape, AdmitOne, Parked, Safe;
    BudgetedCore(cfg, s, budget);
    if s.waiting != [] {
      AttemptShape(cfg, s, budget);
      AttemptKeeps(cfg, s, budget);
      var a := AdmitOne(cfg, s, budget);
      if a.Admitted? { AdmitLoopFault(cfg, a.sys, a.budget); }
    }
  }

  lemma {:induction false} PreemptFault(cfg: Config, s: Sys)
    requires ConfigOk(cfg) && Inv(cfg, s) && s.pc.Idle?
    ensures PreemptLoop(cfg, s).fault == s.fault
    decreases |s.running|
  {
    hide Inv, UnpinOf, Free;
    if |s.pool.free| < |s.running| {
      PreemptKeeps(cfg, s);
      PreemptFault(cfg, PreemptLast(s));
    }
  }

  lemma TickFault(cfg: Config, s: Sys, order: seq<nat>)
    requires ConfigOk(cfg) && Inv(cfg, s) && s.pc.Idle?
    ensures Tick(cfg, s, order).fault == s.fault
  {
    hide Inv, Budgeted, Safe, AdmitLoop;
    var cleared := ReleaseAll(cfg, s, order).(aborted := {});
    AbortedKeeps(cfg, ReleaseAll(cfg, s, order));
    StartKeeps(cfg, cleared);
    var begun := cleared.(pc := Prefilling(0));
    AdmitLoopFault(cfg, begun, |begun.pool.free|);
    var a := AdmitLoop(cfg, begun, |begun.pool.free|);
    if a.broken {
      FailAllFault(cfg, a.sys);
    } else if a.sys.pc.k == 0 {
      PcKeeps(cfg, a.sys, Idle);
      if a.sys.running != [] { PreemptFault(cfg, a.sys.(pc := Idle)); }
    }
  }

  lemma ForwardFault(cfg: Config, s: Sys)
    requires ConfigOk(cfg) && Inv(cfg, s) && Funded(cfg, s) && !s.pc.Idle? && !s.fault && Contractual(cfg)
    ensures !Forward(cfg, s).fault
  {
    hide Inv, Funded, Finishing, Safe, PrepareFrom, Forwarded, FinishFrom;
    BatchFresh(cfg, s);
    PrepareAll(cfg, s, BatchStart(s), BatchStart(s), |s.running|, s.pc.Decoding?);
    var (ok, prepared) := PrepareFrom(cfg, s, BatchStart(s), |s.running|, s.pc.Decoding?);
    if !ok || s.running == [] {
      FailAllFault(cfg, prepared);
    } else {
      ForwardedFinishing(cfg, s);
      FinishNoFault(cfg, Forwarded(cfg, s), 0);
    }
  }

  lemma StepFaultless(cfg: Config, s: Sys, a: Action)
    requires ConfigOk(cfg) && Contractual(cfg) && Inv(cfg, s) && Funded(cfg, s) && !s.fault
    ensures !Step(cfg, s, a).fault
  {
    hide Inv, Funded, Tick, Forward, Crash;
    match a
    case Submit(_, _, _) =>
    case Abort(_) =>
    case Start(order) =>
      if s.pc.Idle? { TickFault(cfg, s, order); }
    case Pass =>
      if !s.pc.Idle? { ForwardFault(cfg, s); }
    case Fail(k, junk) =>
      if !s.pc.Idle? { CrashEmpty(cfg, s, k, junk); }
  }

  /**
   No run ever stops, whatever is submitted and whatever is recorded at the end: without prefix sharing,
   and with it when leaves are cut at whole blocks, the theorems about runs are about all runs.
   */
  lemma {:induction false} NeverFaults(cfg: Config, n: nat, acts: seq<Action>)
    requires ConfigOk(cfg) && Contractual(cfg)
    ensures !Run(cfg, n, acts).fault && Funded(cfg, Run(cfg, n, acts))
    decreases |acts|
  {
    hide Inv, Funded, Step;
    if acts == [] {
      NewSysInv(cfg, n);
    } else {
      var before := acts[..|acts| - 1];
      NeverFaults(cfg, n, before);
      StepFaultless(cfg, Run(cfg, n, before), acts[|acts| - 1]);
    }
  }
}
