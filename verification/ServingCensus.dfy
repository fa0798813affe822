/**
 No request is lost, duplicated or altered: at any moment the submitted requests are exactly those
 waiting, running and gone, each in one place and with the prompt and limits it came with.
 */
module ServingCensus {
  import opened Basics
  import opened Tokens
  import opened PoolSpec
  import opened CacheSpec
  import opened RadixSpec
  import opened RadixUpdate
  import opened RadixInsertEvict
  import opened ServingState
  import opened ServingCore
  import opened Serving
  import opened ServingAdmit
  import opened ServingForward
  import opened ServingRun

  /** What a client hands in, with its place in the order of arrival. */
  datatype Ident = Ident(id: nat, prompt: seq<Token>, maxTokens: int, eos: Token)

  function IdentOf(r: Req): Ident {
    Ident(r.id, r.prompt, r.maxTokens, r.eos)
  }

  function Idents(rs: seq<Req>): (c: multiset<Ident>) {
    if rs == [] then multiset{} else multiset{IdentOf(rs[0])} + Idents(rs[1..])
  }

  function Gone(es: seq<Ended>): multiset<Ident> {
    if es == [] then multiset{} else Gone(es[..|es| - 1]) + multiset{IdentOf(es[|es| - 1].req)}
  }

  function Census(s: Sys): multiset<Ident> {
    Idents(s.waiting) + Idents(s.running) + Gone(s.done)
  }

  lemma {:induction false} IdentsConcat(a: seq<Req>, b: seq<Req>)
    ensures Idents(a + b) == Idents(a) + Idents(b)
  {
    if a == [] {
      assert a + b == b;
    } else {
      assert (a + b)[1..] == a[1..] + b;
      IdentsConcat(a[1..], b);
    }
  }

  lemma IdentsOne(r: Req)
    ensures Idents([r]) == multiset{IdentOf(r)}
  {}

  lemma IdentsWithout(rs: seq<Req>, i: nat)
    requires i < |rs|
    ensures Idents(rs) == Idents(rs[..i] + rs[i + 1..]) + multiset{IdentOf(rs[i])}
  {
    hide Idents, IdentOf;
    assert rs == rs[..i] + ([rs[i]] + rs[i + 1..]);
    IdentsConcat(rs[..i], [rs[i]] + rs[i + 1..]);
    IdentsConcat([rs[i]], rs[i + 1..]);
    IdentsConcat(rs[..i], rs[i + 1..]);
    IdentsOne(rs[i]);
  }

  lemma IdentsUpdate(rs: seq<Req>, i: nat, r: Req)
    requires i < |rs| && IdentOf(r) == IdentOf(rs[i])
    ensures Idents(rs[i := r]) == Idents(rs)
  {
    IdentsWithout(rs, i);
    IdentsWithout(rs[i := r], i);
    assert rs[i := r][..i] == rs[..i] && rs[i := r][i + 1..] == rs[i + 1..];
  }

  lemma GoneMore(es: seq<Ended>, e: Ended)
    ensures Gone(es + [e]) == Gone(es) + multiset{IdentOf(e.req)}
  {
    assert (es + [e])[..|es|] == es;
  }

  // ---------------------------------------------------------------- what every operation keeps

  lemma DropCensus(s: Sys, i: nat, e: Ended)
    requires i < |s.running| && (s.running[i].pin.Some? ==> s.running[i].pin.value in s.tree.nodes) && IdentOf(e.req) == IdentOf(s.running[i])
    ensures Census(DropRunning(s, i).(done := s.done + [e])) == Census(s)
  {
    hide UnpinOf, Free;
    IdentsWithout(s.running, i);
    GoneMore(s.done, e);
  }

  lemma WaitingCensus(s: Sys, i: nat)
    requires i < |s.waiting|
    ensures Census(ReleaseWaiting(s, i)) == Census(s)
  {
    IdentsWithout(s.waiting, i);
    GoneMore(s.done, Ended(s.waiting[i].(phase := Finished), false));
  }

  lemma ReleaseCensus(cfg: Config, s: Sys, id: nat)
    requires ConfigOk(cfg) && Inv(cfg, s) && s.pc.Idle?
    ensures Census(Release(cfg, s, id)) == Census(s)
  {
    hide Inv, Census, DropRunning, ReleaseWaiting;
    var i := Index(s.running, id);
    var j := Index(s.waiting, id);
    if i >= 0 {
      ReleaseRunningKeeps(cfg, s, i);
      DropCensus(s, i, Ended(Cleared(s.running[i], Finished), false));
    } else if j >= 0 {
      WaitingCensus(s, j);
    }
  }

  lemma {:induction false} ReleaseAllCensus(cfg: Config, s: Sys, ids: seq<nat>)
    requires ConfigOk(cfg) && Inv(cfg, s) && s.pc.Idle?
    ensures Census(ReleaseAll(cfg, s, ids)) == Census(s)
    decreases ids
  {
    hide Inv, Census, Release;
    if ids != [] {
      ReleaseCensus(cfg, s, ids[0]);
      ReleaseAllCensus(cfg, Release(cfg, s, ids[0]), ids[1..]);
    }
  }

  /** Moving the oldest waiting request to the end of the running ones. */
  lemma JoinCensus(s: Sys, u: Sys, r: Req)
    requires s.waiting != [] && IdentOf(r) == IdentOf(s.waiting[0])
    requires u.waiting == s.waiting[1..] && u.running == s.running + [r] && u.done == s.done
    ensures Census(u) == Census(s)
  {
    IdentsConcat(s.running, [r]);
    IdentsOne(r);
  }

  lemma SameCensus(s: Sys, u: Sys)
    requires u.waiting == s.waiting && u.running == s.running && u.done == s.done
    ensures Census(u) == Census(s)
  {}

  lemma AdmitCensus(cfg: Config, s: Sys, budget: int)
    requires ConfigOk(cfg) && TreeOk(s.tree, Handles(s.running)) && s.pc.Prefilling?
    requires s.waiting != [] && s.waiting[0].Seq() != []
    ensures Census(AdmitOne(cfg, s, budget).sys) == Census(s)
  {
    hide TreeOk, Shape, LruOk, Evict, Free, Ref, Find, Walk, Matched, Pinned, Chunks, CeilDiv, Pin, Unpin, Without, Census;
    var a := AdmitOne(cfg, s, budget);
    if !a.Refused? {
      var r := a.sys.running[|s.running|];
      assert a.sys.running == s.running + [r];
      JoinCensus(s, a.sys, r);
    } else {
      SameCensus(s, a.sys);
    }
  }

  lemma {:induction false} AdmitLoopCensus(cfg: Config, s: Sys, budget: int)
    requires ConfigOk(cfg) && Budgeted(cfg, s, budget)
    ensures Census(AdmitLoop(cfg, s, budget).sys) == Census(s)
    decreases |s.waiting|
  {
    hide Budgeted, Inv, Funded, TreeOk, Core, Shape, AdmitOne, Parked, Census;
    BudgetedCore(cfg, s, budget);
    if s.waiting != [] {
      AttemptShape(cfg, s, budget);
      AdmitCensus(cfg, s, budget);
      if AdmitOne(cfg, s, budget).Admitted? {
        AdmittedKeeps(cfg, s, budget);
        AdmitLoopCensus(cfg, AdmitOne(cfg, s, budget).sys, AdmitOne(cfg, s, budget).budget);
      }
    }
  }

  lemma PreemptLastCensus(s: Sys)
    requires s.running != []
    requires s.running[|s.running| - 1].pin.Some? ==> s.running[|s.running| - 1].pin.value in s.tree.nodes
    ensures Census(PreemptLast(s)) == Census(s)
  {
    hide UnpinOf, Free;
    var i := |s.running| - 1;
    IdentsWithout(s.running, i);
    var r := Cleared(s.running[i], Waiting);
    assert ([r] + s.waiting)[1..] == s.waiting;
  }

  lemma {:induction false} PreemptCensus(cfg: Config, s: Sys)
    requires ConfigOk(cfg) && Inv(cfg, s) && s.pc.Idle?
    ensures Census(PreemptLoop(cfg, s)) == Census(s)
    decreases |s.running|
  {
    hide Inv, Census, UnpinOf, Free;
    if |s.pool.free| < |s.running| {
      PreemptKeeps(cfg, s);
      PreemptLastCensus(s);
      PreemptCensus(cfg, PreemptLast(s));
    }
  }

  lemma {:induction false} PrepareCensus(cfg: Config, s: Sys, i: nat, upto: nat, decode: bool)
    requires ConfigOk(cfg) && upto <= |s.running|
    ensures Census(PrepareFrom(cfg, s, i, upto, decode).1) == Census(s)
    decreases upto - i
  {
    hide PrepareMeta;
    if i < upto {
      IdentsUpdate(s.running, i, WithPrep(cfg, s, i, decode).running[i]);
      if PrepOf(cfg, s, i, decode).ok { PrepareCensus(cfg, WithPrep(cfg, s, i, decode), i + 1, upto, decode); }
    }
  }

  lemma {:induction false} SampleCensus(cfg: Config, s: Sys, i: nat)
    requires ConfigOk(cfg)
    ensures Census(SampleFrom(cfg, s, i)) == Census(s)
    decreases |s.running| - i
  {
    hide Gather;
    if i < |s.running| {
      var r := SampleReq(cfg, s.mem, s.running[i]);
      IdentsUpdate(s.running, i, r);
      SampleCensus(cfg, s.(running := s.running[i := r]), i + 1);
    }
  }

  lemma FinishAtCensus(cfg: Config, s: Sys, i: nat)
    requires ConfigOk(cfg) && Safe(cfg, s) && i < |s.running| && Ready(cfg, s.running[i])
    ensures Census(FinishAt(cfg, s, i)) == Census(s)
  {
    hide Safe, Ready, Insert, Ref, Free, UnpinOf, Faults, Census, DropRunning;
    SafeShape(cfg, s, i);
    FinishDefined(cfg, s, i);
    var r := s.running[i];
    var x := RecordKey(cfg, r);
    var e := Ended(Cleared(r, Finished), true);
    if !cfg.useRadix {
      DropCensus(s, i, e);
    } else if Faults(cfg, s, i) {
      SameCensus(s, s.(fault := true));
    } else {
      var mid := s.(tree := Insert(s.tree, x, r.kv.table), pool := Ref(s.pool, r.kv.table[Known(s.tree, x)..|x|]).1);
      SameCensus(s, mid);
      DropCensus(mid, i, e);
    }
  }

  lemma {:induction false} FinishCensus(cfg: Config, s: Sys, i: nat)
    requires ConfigOk(cfg) && Finishing(cfg, s, i) && !s.fault
    ensures Census(FinishFrom(cfg, s, i)) == Census(s)
    decreases |s.running| - i
  {
    hide Finishing, Inv, FinishAt, Ready, Census;
    FinishBounds(cfg, s, i);
    if i < |s.running| {
      FinishStep(cfg, s, i);
      if s.running[i].phase != Finished {
        FinishCensus(cfg, s, i + 1);
      } else {
        FinishingSafe(cfg, s, i);
        FinishAtCensus(cfg, s, i);
        if Faults(cfg, s, i) {
          SameCensus(s, s.(fault := true));
        } else {
          FinishCensus(cfg, FinishAt(cfg, s, i), i);
        }
      }
    }
  }

  lemma {:induction false} FailAllCensus(cfg: Config, s: Sys)
    requires ConfigOk(cfg) && Safe(cfg, s)
    ensures Census(FailAll(cfg, s)) == Census(s)
    decreases |s.running|, |s.waiting|
  {
    hide Safe, Inv, Census, DropRunning, ReleaseWaiting, FailAll;
    if s.running != [] {
      FailRunning(cfg, s);
      DropCensus(s, 0, Ended(Cleared(s.running[0], Finished), false));
      FailAllCensus(cfg, ReleaseRunning(s, 0));
    } else if s.waiting != [] {
      FailWaiting(cfg, s);
      WaitingCensus(s, 0);
      FailAllCensus(cfg, ReleaseWaiting(s, 0));
    } else {
      FailEmpty(cfg, s);
      SameCensus(s, s.(pc := Idle));
    }
  }

  // ---------------------------------------------------------------- steps

  lemma TickCensus(cfg: Config, s: Sys, order: seq<nat>)
    requires ConfigOk(cfg) && Inv(cfg, s) && s.pc.Idle?
    ensures Census(Tick(cfg, s, order)) == Census(s)
  {
    hide Inv, Budgeted, Census, Safe;
    var released := ReleaseAll(cfg, s, order);
    ReleaseAllCensus(cfg, s, order);
    var cleared := released.(aborted := {});
    AbortedKeeps(cfg, released);
    StartKeeps(cfg, cleared);
    var begun := cleared.(pc := Prefilling(0));
    SameCensus(released, begun);
    AdmitLoopCensus(cfg, begun, |begun.pool.free|);
    var a := AdmitLoop(cfg, begun, |begun.pool.free|);
    if a.broken {
      FailAllCensus(cfg, a.sys);
    } else if a.sys.pc.k == 0 {
      PcKeeps(cfg, a.sys, Idle);
      var idle := a.sys.(pc := Idle);
      SameCensus(a.sys, idle);
      if idle.running != [] {
        PreemptCensus(cfg, idle);
        SameCensus(PreemptLoop(cfg, idle), PreemptLoop(cfg, idle).(pc := Decoding));
      }
    }
  }

  lemma ForwardedCensus(cfg: Config, s: Sys)
    requires ConfigOk(cfg) && 0 <= BatchStart(s) <= |s.running|
    ensures Census(Forwarded(cfg, s)) == Census(s)
  {
    hide Census, PrepareFrom, SampleFrom, WriteBatch;
    var i := BatchStart(s);
    PrepareCensus(cfg, s, i, |s.running|, s.pc.Decoding?);
    var u := PrepareFrom(cfg, s, i, |s.running|, s.pc.Decoding?).1;
    if i <= |u.running| {
      var w := u.(mem := WriteBatch(cfg, u.mem, u.running[i..], s.pc.Decoding?));
      SameCensus(u, w);
      SampleCensus(cfg, w, i);
      SameCensus(SampleFrom(cfg, w, i), SampleFrom(cfg, w, i).(pc := Idle));
    }
  }

  lemma ForwardCensus(cfg: Config, s: Sys)
    requires ConfigOk(cfg) && Inv(cfg, s) && Funded(cfg, s) && !s.pc.Idle? && !s.fault
    ensures Census(Forward(cfg, s)) == Census(s)
  {
    hide Inv, Funded, Finishing, Safe, PrepareFrom, Forwarded, Census, FinishFrom;
    BatchFresh(cfg, s);
    PrepareAll(cfg, s, BatchStart(s), BatchStart(s), |s.running|, s.pc.Decoding?);
    PrepareCensus(cfg, s, BatchStart(s), |s.running|, s.pc.Decoding?);
    var (ok, prepared) := PrepareFrom(cfg, s, BatchStart(s), |s.running|, s.pc.Decoding?);
    if !ok || s.running == [] {
      FailAllCensus(cfg, prepared);
    } else {
      ForwardedFinishing(cfg, s);
      ForwardedCensus(cfg, s);
      FinishCensus(cfg, Forwarded(cfg, s), 0);
      SameCensus(s, s.(fault := true));
    }
  }

  lemma CrashCensus(cfg: Config, s: Sys, k: nat, junk: (nat, nat) -> Cell)
    requires ConfigOk(cfg) && Inv(cfg, s) && Funded(cfg, s) && !s.pc.Idle?
    ensures Census(Crash(cfg, s, k, junk)) == Census(s)
  {
    hide Inv, Funded, Safe, PrepareFrom, JunkBatch, Census;
    BatchFresh(cfg, s);
    var i := BatchStart(s);
    var upto := if i + k <= |s.running| then i + k else |s.running|;
    PrepareAll(cfg, s, i, i, upto, s.pc.Decoding?);
    PrepareCensus(cfg, s, i, upto, s.pc.Decoding?);
    var u := PrepareFrom(cfg, s, i, upto, s.pc.Decoding?).1;
    var mem := JunkBatch(cfg, u.mem, u.running[i..], s.pc.Decoding?, junk);
    PreparingSafe(cfg, u, i, upto, s.pc.Decoding?, mem);
    SameCensus(u, u.(mem := mem));
    FailAllCensus(cfg, u.(mem := mem));
  }

  /** What an action hands in, if it is accepted. */
  function Handed(s: Sys, a: Action): multiset<Ident> {
    if a.Submit? && !s.fault && a.prompt != [] then multiset{Ident(s.nextId, a.prompt, a.maxTokens, a.eos)} else multiset{}
  }

  lemma SubmitCensus(s: Sys, r: Req)
    ensures Census(s.(waiting := s.waiting + [r], nextId := s.nextId + 1)) == Census(s) + multiset{IdentOf(r)}
  {
    IdentsConcat(s.waiting, [r]);
    IdentsOne(r);
  }

  lemma StepCensus(cfg: Config, s: Sys, a: Action)
    requires ConfigOk(cfg) && Inv(cfg, s) && (s.fault || Funded(cfg, s))
    ensures Census(Step(cfg, s, a)) == Census(s) + Handed(s, a)
  {
    hide Inv, Funded, Tick, Forward, Crash, Census;
    if !s.fault {
      match a
      case Submit(prompt, maxTokens, eos) =>
        if prompt != [] { SubmitCensus(s, NewReq(s, prompt, maxTokens, eos)); }
      case Abort(id) =>
        SameCensus(s, s.(aborted := s.aborted + {id}));
      case Start(order) =>
        if s.pc.Idle? { TickCensus(cfg, s, order); }
      case Pass =>
        if !s.pc.Idle? { ForwardCensus(cfg, s); }
      case Fail(k, junk) =>
        if !s.pc.Idle? { CrashCensus(cfg, s, k, junk); }
    }
  }

  /** All requests handed in during a run. */
  function Submitted(cfg: Config, n: nat, acts: seq<Action>): multiset<Ident>
    requires ConfigOk(cfg)
    decreases |acts|
  {
    if acts == [] then multiset{}
    else Submitted(cfg, n, acts[..|acts| - 1]) + Handed(Run(cfg, n, acts[..|acts| - 1]), acts[|acts| - 1])
  }

  /**
   Conservation of requests: in every reachable state the requests waiting, running and gone are
   together exactly the ones submitted, each once and unaltered.
   */
  lemma {:induction false} EveryRequestAccounted(cfg: Config, n: nat, acts: seq<Action>)
    requires ConfigOk(cfg)
    ensures Census(Run(cfg, n, acts)) == Submitted(cfg, n, acts)
    decreases |acts|
  {
    hide Inv, Funded, Step, Handed;
    if acts != [] {
      hide Census;
      var before := acts[..|acts| - 1];
      EveryRequestAccounted(cfg, n, before);
      StepCensus(cfg, Run(cfg, n, before), acts[|acts| - 1]);
    }
  }
}
