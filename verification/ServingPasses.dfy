/**
 What a forward pass does to the requests: each of the batch gets one more token, those that are over
 leave, and nothing else moves; or the pass fails and every request leaves.
 */
module ServingPasses {
  import opened Basics
  import opened Tokens
  import opened PoolSpec
  import opened CacheSpec
  import opened RadixSpec
  import opened RadixUpdate
  import opened RadixInsertEvict
  import opened ServingState
  import opened ServingCore
  import opened Serving
  import opened ServingAdmit
  import opened ServingForward
  import opened ServingRun
  import opened ServingTheorems
  import opened ServingSolo
  import opened ServingSound
  import opened ServingCards
  import opened ServingKept
  import opened ServingSteps

  /** `d` is `c` with one more token. */
  predicate Grew(c: Card, d: Card) {
    |d.gen| == |c.gen| + 1 && c.gen <= d.gen && d == c.(gen := d.gen)
  }

  /** Nothing more is to be generated: the last token is the end token, or the limit is reached. */
  predicate Over(c: Card) {
    c.gen != [] && (c.gen[|c.gen| - 1] == c.eos || |c.gen| >= c.maxTokens)
  }

  /** The cards that are over, or those that are not, in order. */
  function Sorted(cs: seq<Card>, over: bool): (r: seq<Card>)
    ensures |r| <= |cs|
  {
    if cs == [] then [] else (if Over(cs[0]) == over then [cs[0]] else []) + Sorted(cs[1..], over)
  }

  lemma {:induction false} SortedIs(cs: seq<Card>, over: bool, c: Card)
    ensures c in Sorted(cs, over) <==> c in cs && Over(c) == over
  {
    if cs != [] {
      SortedIs(cs[1..], over, c);
      assert cs == [cs[0]] + cs[1..];
    }
  }

  // ---------------------------------------------------------------- sampling

  /** `q` is `r` after it has been given one more token, finished exactly if it is over. */
  predicate OneMore(r: Req, q: Req) {
    Grew(CardOf(r), CardOf(q)) && (q.phase == Finished <==> Over(CardOf(q)))
  }

  lemma MoreSame(r: Req, q: Req, u: Req)
    requires CardOf(r) == CardOf(q) && OneMore(q, u)
    ensures OneMore(r, u)
  {}

  lemma SampledGrew(cfg: Config, mem: seq<seq<Cell>>, r: Req)
    requires ConfigOk(cfg)
    ensures OneMore(r, SampleReq(cfg, mem, r))
  {
    hide Gather;
  }

  /** Requests from `i` on have been given one more token, the others are as they were. */
  ghost predicate SampledOn(rs: seq<Req>, qs: seq<Req>, i: nat) {
    && |qs| == |rs|
    && (forall j {:trigger qs[j]} :: 0 <= j < i && j < |rs| ==> qs[j] == rs[j])
    && (forall j {:trigger qs[j]} :: i <= j < |rs| ==> OneMore(rs[j], qs[j]))
  }

  lemma SampledNext(rs: seq<Req>, i: nat, q: Req, qs: seq<Req>)
    requires i < |rs| && OneMore(rs[i], q) && SampledOn(rs[i := q], qs, i + 1)
    ensures SampledOn(rs, qs, i)
  {
    hide OneMore;
    var v := rs[i := q];
    forall j {:trigger qs[j]} | i <= j < |rs| ensures OneMore(rs[j], qs[j]) {
      if j == i { assert qs[j] == v[j]; } else { assert v[j] == rs[j]; }
    }
  }

  lemma {:induction false} SampleLists(cfg: Config, s: Sys, i: nat)
    requires ConfigOk(cfg) && i <= |s.running|
    ensures SampledOn(s.running, SampleFrom(cfg, s, i).running, i)
    decreases |s.running| - i
  {
    hide OneMore, SampleReq, SampledOn;
    if i < |s.running| {
      SampledGrew(cfg, s.mem, s.running[i]);
      SampleLists(cfg, s.(running := s.running[i := SampleReq(cfg, s.mem, s.running[i])]), i + 1);
      SampledNext(s.running, i, SampleReq(cfg, s.mem, s.running[i]), SampleFrom(cfg, s, i).running);
    } else {
      SampledNone(s.running);
    }
  }

  lemma SampledNone(rs: seq<Req>)
    ensures SampledOn(rs, rs, |rs|)
  {}

  /** After the model: one more token for each request of the batch, the others as they were. */
  ghost predicate Advanced(s: Sys, u: Sys) {
    && |u.running| == |s.running| && 0 <= BatchStart(s) <= |s.running|
    && u.waiting == s.waiting && u.done == s.done && u.lost == s.lost && u.aborted == s.aborted && u.nextId == s.nextId
    && (forall j {:trigger u.running[j]} :: 0 <= j < BatchStart(s) ==>
          CardOf(u.running[j]) == CardOf(s.running[j]) && u.running[j].phase == s.running[j].phase)
    && (forall j {:trigger u.running[j]} :: BatchStart(s) <= j < |s.running| ==>
          OneMore(s.running[j], u.running[j]))
  }

  lemma ForwardedLists(cfg: Config, s: Sys)
    requires ConfigOk(cfg) && 0 <= BatchStart(s) <= |s.running| && PrepareFrom(cfg, s, BatchStart(s), |s.running|, s.pc.Decoding?).0
    ensures Advanced(s, Forwarded(cfg, s))
  {
    hide OneMore, SampleFrom, WriteBatch, PrepareFrom, SampledOn;
    var i := BatchStart(s);
    var decode := s.pc.Decoding?;
    PrepareSame(cfg, s, i, |s.running|, decode);
    var u := PrepareFrom(cfg, s, i, |s.running|, decode).1;
    var v := u.(mem := WriteBatch(cfg, u.mem, u.running[i..], decode));
    SampleLists(cfg, v, i);
    AdvancedFrom(s, u, Forwarded(cfg, s));
  }

  lemma AdvancedFrom(s: Sys, u: Sys, w: Sys)
    requires |u.running| == |s.running| && u == s.(pool := u.pool, running := u.running) && 0 <= BatchStart(s) <= |s.running|
    requires forall j {:trigger u.running[j]} :: 0 <= j < |s.running| ==> u.running[j] == s.running[j].(kv := u.running[j].kv)
    requires w == u.(mem := w.mem, running := w.running, pc := w.pc) && SampledOn(u.running, w.running, BatchStart(s))
    ensures Advanced(s, w)
  {
    hide OneMore;
    var i := BatchStart(s);
    forall j {:trigger w.running[j]} | i <= j < |s.running| ensures OneMore(s.running[j], w.running[j]) {
      MoreSame(s.running[j], u.running[j], w.running[j]);
    }
    forall j {:trigger w.running[j]} | 0 <= j < i
      ensures CardOf(w.running[j]) == CardOf(s.running[j]) && w.running[j].phase == s.running[j].phase
    {
      assert w.running[j] == u.running[j];
    }
  }

  // ---------------------------------------------------------------- leaving

  function Going(rs: seq<Req>): (r: seq<Req>)
    ensures |r| <= |rs|
  {
    if rs == [] then [] else (if rs[0].phase == Finished then [] else [rs[0]]) + Going(rs[1..])
  }

  function Endings(rs: seq<Req>): seq<Ended> {
    if rs == [] then [] else (if rs[0].phase == Finished then [Ended(Cleared(rs[0], Finished), true)] else []) + Endings(rs[1..])
  }

  lemma FinishAtLists(cfg: Config, s: Sys, i: nat)
    requires ConfigOk(cfg) && Safe(cfg, s) && i < |s.running| && Ready(cfg, s.running[i]) && Shape(s.tree) && !Faults(cfg, s, i)
    ensures var u := FinishAt(cfg, s, i);
      && u.running == s.running[..i] + s.running[i + 1..] && u.waiting == s.waiting && u.lost == s.lost && u.aborted == s.aborted
      && u.nextId == s.nextId && u.done == s.done + [Ended(Cleared(s.running[i], Finished), true)]
  {
    hide Safe, Core, Insert, Ref, Ready, Free, UnpinOf, Faults;
    SafeShape(cfg, s, i);
    FinishDefined(cfg, s, i);
  }

  /** The finishing loop takes out exactly the finished requests, in order. */
  lemma {:induction false} FinishLists(cfg: Config, s: Sys, i: nat)
    requires ConfigOk(cfg) && Finishing(cfg, s, i) && !s.fault && !FinishFrom(cfg, s, i).fault
    ensures i <= |s.running|
    ensures var u := FinishFrom(cfg, s, i);
      && u.running == s.running[..i] + Going(s.running[i..]) && u.done == s.done + Endings(s.running[i..])
      && u.waiting == s.waiting && u.lost == s.lost && u.aborted == s.aborted && u.nextId == s.nextId
    decreases |s.running| - i
  {
    hide Finishing, Inv, FinishAt, Faults, Ready;
    FinishBounds(cfg, s, i);
    if i < |s.running| {
      var r := s.running[i];
      FinishStep(cfg, s, i);
      assert s.running[i..][1..] == s.running[i + 1..];
      if r.phase != Finished {
        FinishLists(cfg, s, i + 1);
        GoOn(s.running, i, Going(s.running[i + 1..]));
      } else {
        FinishingSafe(cfg, s, i);
        FinishAtLists(cfg, s, i);
        var u := FinishAt(cfg, s, i);
        FinishLists(cfg, u, i);
        CutAt(s.running, i);
        var e := [Ended(Cleared(r, Finished), true)];
        assert s.done + (e + Endings(s.running[i + 1..])) == (s.done + e) + Endings(s.running[i + 1..]);
      }
    }
  }

  lemma GoOn(rs: seq<Req>, i: nat, g: seq<Req>)
    requires i < |rs|
    ensures rs[..i + 1] + g == rs[..i] + ([rs[i]] + g)
  {}

  lemma CutAt(rs: seq<Req>, i: nat)
    requires i < |rs|
    ensures (rs[..i] + rs[i + 1..])[..i] == rs[..i] && (rs[..i] + rs[i + 1..])[i..] == rs[i + 1..]
  {}

  /** Requests that leave are those that are over, and they leave normally. */
  ghost predicate LeftAs(cs: seq<Card>, es: seq<Ended>) {
    && |es| == |cs|
    && forall k {:trigger es[k]} {:trigger cs[k]} :: 0 <= k < |es| ==> es[k].normal && CardOf(es[k].req) == cs[k]
  }

  lemma {:induction false} SortedOut(rs: seq<Req>)
    requires forall j {:trigger rs[j]} :: 0 <= j < |rs| ==> (rs[j].phase == Finished <==> Over(CardOf(rs[j])))
    ensures Cards(Going(rs)) == Sorted(Cards(rs), false)
    ensures LeftAs(Sorted(Cards(rs), true), Endings(rs))
  {
    hide Over;
    if rs != [] {
      var rest := rs[1..];
      SortedOut(rest);
      assert Cards(rs)[1..] == Cards(rest);
      assert rs[0].phase == Finished <==> Over(CardOf(rs[0]));
      if rs[0].phase == Finished {
        LeftCons(CardOf(rs[0]), Ended(Cleared(rs[0], Finished), true), Sorted(Cards(rest), true), Endings(rest));
      } else {
        CardsConcat([rs[0]], Going(rest));
      }
    }
  }

  lemma LeftCons(c: Card, e: Ended, cs: seq<Card>, es: seq<Ended>)
    requires LeftAs(cs, es) && e.normal && CardOf(e.req) == c
    ensures LeftAs([c] + cs, [e] + es)
  {}

  // ---------------------------------------------------------------- a whole pass

  /** The cards of the running requests once each of the batch has one more token. */
  ghost predicate GrownBy(s: Sys, grown: seq<Card>) {
    && |grown| == |s.running| && 0 <= BatchStart(s) <= |s.running|
    && forall j {:trigger grown[j]} :: 0 <= j < |grown| ==>
         if j < BatchStart(s) then grown[j] == CardOf(s.running[j]) else Grew(CardOf(s.running[j]), grown[j])
  }

  /** No live request is over. */
  ghost predicate NoneOver(s: Sys) {
    forall c :: c in Live(s) ==> !Over(c)
  }

  /** What a pass that succeeds leaves: those that are over have left normally, the others run on in order. */
  ghost predicate PassedOn(s: Sys, u: Sys, grown: seq<Card>) {
    && GrownBy(s, grown)
    && Cards(u.running) == Sorted(grown, false) && u.waiting == s.waiting && u.pc.Idle?
    && |s.done| <= |u.done| && u.done[..|s.done|] == s.done && LeftAs(Sorted(grown, true), u.done[|s.done|..])
    && u.lost == s.lost && u.aborted == s.aborted && u.nextId == s.nextId
  }

  /** What failing leaves: every request has left, each once, with what it had generated. */
  ghost predicate AllDropped(s: Sys, u: Sys) {
    && u.running == [] && u.waiting == [] && u.pc.Idle? && u.lost == s.lost && u.aborted == s.aborted
    && |s.done| <= |u.done| && u.done[..|s.done|] == s.done && Removed(Live(s), Ids(Live(s)), u.done[|s.done|..])
  }

  lemma BatchPhases(cfg: Config, s: Sys)
    requires ConfigOk(cfg) && Inv(cfg, s) && NoneOver(s)
    ensures forall j {:trigger s.running[j]} :: 0 <= j < BatchStart(s) && j < |s.running| && !s.pc.Idle? ==>
      s.running[j].phase != Finished && !Over(CardOf(s.running[j]))
  {
    hide Safe, Ready, Over, Live;
    forall j {:trigger s.running[j]} | 0 <= j < BatchStart(s) && j < |s.running| && !s.pc.Idle?
      ensures s.running[j].phase != Finished && !Over(CardOf(s.running[j]))
    {
      LiveAt(s, s.running[j]);
    }
  }

  lemma AdvancedGrown(cfg: Config, s: Sys, u: Sys)
    requires ConfigOk(cfg) && Inv(cfg, s) && NoneOver(s) && !s.pc.Idle? && Advanced(s, u)
    ensures GrownBy(s, Cards(u.running))
    ensures forall j {:trigger u.running[j]} :: 0 <= j < |u.running| ==> (u.running[j].phase == Finished <==> Over(CardOf(u.running[j])))
  {
    hide Inv, NoneOver, Grew, Over;
    BatchPhases(cfg, s);
    forall j {:trigger u.running[j]} | 0 <= j < |u.running|
      ensures u.running[j].phase == Finished <==> Over(CardOf(u.running[j]))
    {
      if j < BatchStart(s) {
        assert s.running[j].phase != Finished && !Over(CardOf(s.running[j]));
      } else {
        assert OneMore(s.running[j], u.running[j]);
      }
    }
    var grown := Cards(u.running);
    forall j {:trigger grown[j]} | 0 <= j < |grown|
      ensures if j < BatchStart(s) then grown[j] == CardOf(s.running[j]) else Grew(CardOf(s.running[j]), grown[j])
    {
      assert grown[j] == CardOf(u.running[j]);
      if j >= BatchStart(s) { assert OneMore(s.running[j], u.running[j]); }
    }
  }

  lemma FinishedLists(cfg: Config, s: Sys, u: Sys, w: Sys)
    requires ConfigOk(cfg) && Inv(cfg, s) && NoneOver(s) && !s.pc.Idle? && Advanced(s, u)
    requires Finishing(cfg, u, 0) && !u.fault && !FinishFrom(cfg, u, 0).fault && w == FinishFrom(cfg, u, 0)
    ensures PassedOn(s, w, Cards(u.running))
  {
    hide Inv, NoneOver, Finishing, FinishFrom, Over, GrownBy, Sorted, Cards, LeftAs, Endings, Going;
    FinishLists(cfg, u, 0);
    AdvancedGrown(cfg, s, u);
    assert u.running[0..] == u.running && [] + Going(u.running) == Going(u.running);
    SortedOut(u.running);
    assert w.running == u.running[..0] + Going(u.running[0..]) == Going(u.running);
    assert w.done[|s.done|..] == Endings(u.running);
    assert w.done[..|s.done|] == s.done;
    FinishIdle(cfg, u);
  }

  lemma FinishIdle(cfg: Config, u: Sys)
    requires ConfigOk(cfg) && Finishing(cfg, u, 0) && !u.fault && !FinishFrom(cfg, u, 0).fault
    ensures FinishFrom(cfg, u, 0).pc.Idle?
  {
    hide Finishing, Inv, FinishFrom;
  }

  /** The metadata of every request of the batch goes through, and there is one. */
  ghost predicate BatchGoes(cfg: Config, s: Sys)
    requires ConfigOk(cfg)
  {
    && s.running != [] && 0 <= BatchStart(s) <= |s.running|
    && PrepareFrom(cfg, s, BatchStart(s), |s.running|, s.pc.Decoding?).0
  }

  lemma ForwardLists(cfg: Config, s: Sys) returns (grown: seq<Card>)
    requires ConfigOk(cfg) && Inv(cfg, s) && Funded(cfg, s) && !s.pc.Idle? && !s.fault && NoneOver(s)
    ensures var u := Forward(cfg, s);
      if u.fault then u == s.(fault := true)
      else if BatchGoes(cfg, s) then PassedOn(s, u, grown)
      else AllDropped(s, u)
  {
    hide Inv, Funded, Finishing, Safe, PrepareFrom, Forwarded, NoneOver, PassedOn, Advanced, FinishFrom, FailAll, Removed, Ids, Live;
    BatchFresh(cfg, s);
    PrepareAll(cfg, s, BatchStart(s), BatchStart(s), |s.running|, s.pc.Decoding?);
    var (ok, prepared) := PrepareFrom(cfg, s, BatchStart(s), |s.running|, s.pc.Decoding?);
    grown := [];
    if !ok || s.running == [] {
      PrepareSame(cfg, s, BatchStart(s), |s.running|, s.pc.Decoding?);
      DroppedAll(cfg, s, prepared);
      FailAllFault(cfg, prepared);
    } else {
      ForwardedFinishing(cfg, s);
      var v := Forwarded(cfg, s);
      if !FinishFrom(cfg, v, 0).fault {
        ForwardedLists(cfg, s);
        FinishedLists(cfg, s, v, FinishFrom(cfg, v, 0));
        grown := Cards(v.running);
      }
    }
  }

  /** Failing from a state that differs in blocks and caches only. */
  lemma DroppedAll(cfg: Config, s: Sys, u: Sys)
    requires ConfigOk(cfg) && Safe(cfg, u) && |u.running| == |s.running|
    requires u == s.(pool := u.pool, mem := u.mem, running := u.running)
    requires forall j {:trigger u.running[j]} {:trigger s.running[j]} :: 0 <= j < |s.running| ==> u.running[j] == s.running[j].(kv := u.running[j].kv)
    ensures AllDropped(s, FailAll(cfg, u))
  {
    hide Safe, Inv, FailAll, Removed, Ids;
    var es := FailLists(cfg, u);
    FailKeeps(cfg, u);
    FailAllLost(cfg, u);
    assert Cards(u.running) == Cards(s.running) by {
      forall j | 0 <= j < |s.running| ensures CardOf(u.running[j]) == CardOf(s.running[j]) {}
    }
    var w := FailAll(cfg, u);
    assert w.done[..|s.done|] == s.done && w.done[|s.done|..] == es;
  }

  lemma CrashLists(cfg: Config, s: Sys, k: nat, junk: (nat, nat) -> Cell)
    requires ConfigOk(cfg) && Inv(cfg, s) && Funded(cfg, s) && !s.pc.Idle?
    ensures AllDropped(s, Crash(cfg, s, k, junk))
  {
    hide Inv, Funded, Safe, PrepareFrom, JunkBatch, AllDropped, FailAll;
    BatchFresh(cfg, s);
    var i := BatchStart(s);
    var upto := if i + k <= |s.running| then i + k else |s.running|;
    PrepareAll(cfg, s, i, i, upto, s.pc.Decoding?);
    PrepareSame(cfg, s, i, upto, s.pc.Decoding?);
    var u := PrepareFrom(cfg, s, i, upto, s.pc.Decoding?).1;
    var mem := JunkBatch(cfg, u.mem, u.running[i..], s.pc.Decoding?, junk);
    PreparingSafe(cfg, u, i, upto, s.pc.Decoding?, mem);
    DroppedAll(cfg, s, u.(mem := mem));
  }

  // ---------------------------------------------------------------- over runs

  lemma OutsideOver(s: Sys, u: Sys, ids: set<nat>)
    requires NoneOver(s) && (Live(u) == Outside(Live(s), ids) || Live(u) == [])
    ensures NoneOver(u)
  {
    hide Over, Outside, Live;
    forall c | c in Live(u) ensures !Over(c) { OutsideIs(Live(s), ids, c); }
  }

  lemma PassedOver(s: Sys, u: Sys, grown: seq<Card>)
    requires NoneOver(s) && PassedOn(s, u, grown)
    ensures NoneOver(u)
  {
    hide Over, Sorted, Cards, Removed, LeftAs, GrownBy;
    forall c | c in Live(u) ensures !Over(c) {
      LiveIs(u);
      if c in Cards(u.running) {
        SortedIs(grown, false, c);
      } else {
        LiveIs(s);
        assert c in Cards(s.waiting);
      }
    }
  }

  lemma DroppedOver(s: Sys, u: Sys)
    requires AllDropped(s, u)
    ensures NoneOver(u)
  {}

  lemma SubmittedOver(s: Sys, u: Sys, r: Req)
    requires NoneOver(s) && r.gen == [] && u.running == s.running && u.waiting == s.waiting + [r]
    ensures NoneOver(u)
  {
    CardsConcat(s.waiting, [r]);
  }

  lemma StepOver(cfg: Config, s: Sys, a: Action)
    requires ConfigOk(cfg) && Inv(cfg, s) && (s.fault || Funded(cfg, s)) && NoneOver(s)
    ensures NoneOver(Step(cfg, s, a))
  {
    hide Inv, Funded, Tick, Forward, Crash, NoneOver, PassedOn, AllDropped, BatchGoes, Removed, Outside, Ids;
    if !s.fault {
      match a
      case Submit(prompt, maxTokens, eos) =>
        if prompt != [] { SubmittedOver(s, Step(cfg, s, a), NewReq(s, prompt, maxTokens, eos)); }
      case Abort(_) => SameOver(s, Step(cfg, s, a));
      case Start(order) =>
        if s.pc.Idle? {
          var es := TickClears(cfg, s, order);
          OutsideOver(s, Tick(cfg, s, order), Set(order));
        }
      case Pass =>
        if !s.pc.Idle? {
          var grown := ForwardLists(cfg, s);
          var u := Forward(cfg, s);
          if u.fault { SameOver(s, u); } else if BatchGoes(cfg, s) { PassedOver(s, u, grown); } else { DroppedOver(s, u); }
        }
      case Fail(k, junk) =>
        if !s.pc.Idle? {
          CrashLists(cfg, s, k, junk);
          DroppedOver(s, Crash(cfg, s, k, junk));
        }
    }
  }

  lemma SameOver(s: Sys, u: Sys)
    requires NoneOver(s) && u.running == s.running && u.waiting == s.waiting
    ensures NoneOver(u)
  {}

  /** A request leaves with the token that makes it over: in no reachable state is a live one over. */
  lemma {:induction false} LeavesAtOnce(cfg: Config, n: nat, acts: seq<Action>)
    requires ConfigOk(cfg)
    ensures NoneOver(Run(cfg, n, acts))
    decreases |acts|
  {
    hide Inv, Funded, Step;
    if acts != [] {
      hide NoneOver;
      LeavesAtOnce(cfg, n, acts[..|acts| - 1]);
      StepOver(cfg, Run(cfg, n, acts[..|acts| - 1]), acts[|acts| - 1]);
    }
  }

  /** The pass the loop waits for will fail: the batch is empty, has too few blocks, or someone in it is at the length limit. */
  ghost predicate Doomed(cfg: Config, s: Sys)
    requires ConfigOk(cfg) && 0 <= BatchStart(s) <= |s.running|
  {
    s.running == [] || Underfunded(cfg, s) || exists j :: BatchStart(s) <= j < |s.running| && AtLimit(cfg, s.running[j], s.pc.Decoding?)
  }

  lemma DoomedIff(cfg: Config, n: nat, acts: seq<Action>)
    requires ConfigOk(cfg) && !Run(cfg, n, acts).fault && !Run(cfg, n, acts).pc.Idle?
    ensures var s := Run(cfg, n, acts); 0 <= BatchStart(s) <= |s.running| && (BatchGoes(cfg, s) <==> !Doomed(cfg, s))
  {
    hide Run, Inv, Funded, PrepareFrom, Underfunded, AtLimit;
    BatchesAreFunded(cfg, n, acts);
  }

  /**
   A pass, exactly. Unless it is doomed, every request of its batch has one more token and all others have the
   same; those that are over have left, normally and in order, the rest run on in order and the queue is
   untouched. If it is doomed every request has left, each once, with what it had generated.
   */
  lemma PassAdvances(cfg: Config, n: nat, acts: seq<Action>) returns (grown: seq<Card>)
    requires ConfigOk(cfg) && !Run(cfg, n, acts).pc.Idle? && !Run(cfg, n, acts + [Pass]).fault
    ensures var s, u := Run(cfg, n, acts), Run(cfg, n, acts + [Pass]);
      && !s.fault && 0 <= BatchStart(s) <= |s.running|
      && if Doomed(cfg, s) then AllDropped(s, u) else PassedOn(s, u, grown)
  {
    hide Run, Inv, Funded, Forward, Doomed, BatchGoes, PassedOn, AllDropped, NoneOver;
    RunMore(cfg, n, acts, Pass);
    LeavesAtOnce(cfg, n, acts);
    DoomedIff(cfg, n, acts);
    grown := ForwardLists(cfg, Run(cfg, n, acts));
  }

  /** A pass that dies, wherever and leaving whatever behind, drops every request. */
  lemma FailDrops(cfg: Config, n: nat, acts: seq<Action>, k: nat, junk: (nat, nat) -> Cell)
    requires ConfigOk(cfg) && !Run(cfg, n, acts).pc.Idle? && !Run(cfg, n, acts).fault
    ensures AllDropped(Run(cfg, n, acts), Run(cfg, n, acts + [Fail(k, junk)]))
  {
    hide Run, Inv, Funded, Crash, AllDropped;
    RunMore(cfg, n, acts, Fail(k, junk));
    CrashLists(cfg, Run(cfg, n, acts), k, junk);
  }

  /** Clients: a submission joins the end of the queue with nothing generated; an abort is noted, and nothing else changes. */
  lemma ClientSteps(cfg: Config, n: nat, acts: seq<Action>, prompt: seq<Token>, maxTokens: int, eos: Token, id: nat)
    requires ConfigOk(cfg) && !Run(cfg, n, acts).fault && prompt != []
    ensures var s, u := Run(cfg, n, acts), Run(cfg, n, acts + [Submit(prompt, maxTokens, eos)]);
      && Live(u) == Live(s) + [Card(s.nextId, prompt, [], maxTokens, eos)] && u.nextId == s.nextId + 1
      && u == s.(waiting := u.waiting, nextId := u.nextId) && s.waiting <= u.waiting
    ensures Run(cfg, n, acts + [Abort(id)]) == Run(cfg, n, acts).(aborted := Run(cfg, n, acts).aborted + {id})
  {
    hide Run, Inv, Funded;
    RunMore(cfg, n, acts, Submit(prompt, maxTokens, eos));
    RunMore(cfg, n, acts, Abort(id));
    var s, u := Run(cfg, n, acts), Run(cfg, n, acts + [Submit(prompt, maxTokens, eos)]);
    CardsConcat(s.waiting, [u.waiting[|s.waiting|]]);
  }
}
