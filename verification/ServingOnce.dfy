/** Every request leaves at most once, and then neither runs nor waits again. */
module ServingOnce {
  import opened Basics
  import opened Tokens
  import opened PoolSpec
  import opened CacheSpec
  import opened RadixSpec
  import opened RadixUpdate
  import opened RadixInsertEvict
  import opened ServingState
  import opened ServingCore
  import opened Serving
  import opened ServingAdmit
  import opened ServingForward
  import opened ServingRun
  import opened ServingTheorems
  import opened ServingSolo
  import opened ServingSound
  import opened ServingCards
  import opened ServingKept
  import opened ServingSteps
  import opened ServingPasses

  /** Names of requests that left are distinct, and none of them is alive or still to be given out. */
  ghost predicate Once(s: Sys) {
    && (forall k, l {:trigger s.done[k], s.done[l]} :: 0 <= k < l < |s.done| ==> s.done[k].req.id != s.done[l].req.id)
    && (forall k {:trigger s.done[k]} :: 0 <= k < |s.done| ==> s.done[k].req.id < s.nextId && s.done[k].req.id !in Ids(Live(s)))
    && (forall c :: c in Live(s) ==> c.id < s.nextId)
  }

  /** The requests in `es` have left a list with names `ids`, and those with names `rest` are still in it. */
  ghost predicate Departed(ids: set<nat>, es: seq<Ended>, rest: set<nat>) {
    && rest <= ids
    && (forall k, l {:trigger es[k], es[l]} :: 0 <= k < l < |es| ==> es[k].req.id != es[l].req.id)
    && (forall k {:trigger es[k]} :: 0 <= k < |es| ==> es[k].req.id in ids && es[k].req.id !in rest)
  }

  lemma OnceStep(s: Sys, u: Sys, es: seq<Ended>)
    requires Once(s) && u.done == s.done + es && u.nextId == s.nextId && Departed(Ids(Live(s)), es, Ids(Live(u)))
    ensures Once(u)
  {
    hide Live;
    forall id | id in Ids(Live(s)) ensures id < s.nextId {
      var c :| c in Live(s) && c.id == id;
    }
    forall k {:trigger u.done[k]} | 0 <= k < |u.done| ensures u.done[k].req.id < u.nextId && u.done[k].req.id !in Ids(Live(u)) {
      if k < |s.done| { assert u.done[k] == s.done[k]; } else { assert u.done[k] == es[k - |s.done|]; }
    }
    forall k, l {:trigger u.done[k], u.done[l]} | 0 <= k < l < |u.done| ensures u.done[k].req.id != u.done[l].req.id {
      if l < |s.done| {
        assert u.done[k] == s.done[k] && u.done[l] == s.done[l];
      } else if k < |s.done| {
        assert u.done[k] == s.done[k] && u.done[l] == es[l - |s.done|];
      } else {
        assert u.done[k] == es[k - |s.done|] && u.done[l] == es[l - |s.done|];
      }
    }
  }

  lemma NoName(cs: seq<Card>, id: nat)
    requires forall c :: c in cs ==> c.id != id
    ensures id !in Ids(cs)
  {}

  lemma RemovedDeparts(live: seq<Card>, ids: set<nat>, es: seq<Ended>, rest: seq<Card>)
    requires Removed(live, ids, es) && (rest == Outside(live, ids) || rest == [])
    ensures Departed(Ids(live), es, Ids(rest))
  {
    hide Outside;
    forall c ensures c in rest ==> c in live && c.id !in ids { OutsideIs(live, ids, c); }
    forall k {:trigger es[k]} | 0 <= k < |es| ensures es[k].req.id in Ids(live) && es[k].req.id !in Ids(rest) {
      assert CardOf(es[k].req) in live;
      NoName(rest, es[k].req.id);
    }
  }

  lemma {:induction false} SortedNamed(cs: seq<Card>, over: bool)
    requires Named(cs)
    ensures Named(Sorted(cs, over))
  {
    if cs != [] {
      SortedNamed(cs[1..], over);
      var rest := Sorted(cs[1..], over);
      forall i | 0 <= i < |rest| ensures rest[i].id != cs[0].id {
        SortedIs(cs[1..], over, rest[i]);
        var k :| 0 <= k < |cs[1..]| && cs[1..][k] == rest[i];
        assert cs[k + 1] == rest[i];
      }
    }
  }

  lemma SameName(cs: seq<Card>, c: Card, d: Card)
    requires Named(cs) && c in cs && d in cs && c.id == d.id
    ensures c == d
  {
    var i :| 0 <= i < |cs| && cs[i] == c;
    var j :| 0 <= j < |cs| && cs[j] == d;
  }

  lemma PassedDeparts(cfg: Config, s: Sys, u: Sys, grown: seq<Card>)
    requires ConfigOk(cfg) && Safe(cfg, s) && PassedOn(s, u, grown)
    ensures Departed(Ids(Live(s)), u.done[|s.done|..], Ids(Live(u)))
  {
    LiveNamed(cfg, s);
    var es := u.done[|s.done|..];
    var all := grown + Cards(s.waiting);
    assert |all| == |Live(s)|;
    forall i | 0 <= i < |all| ensures all[i].id == Live(s)[i].id {}
    hide Safe, Sorted, Over, Grew;
    assert Named(all) && Named(grown);
    SortedNamed(grown, true);
    forall k {:trigger es[k]} | 0 <= k < |es| ensures es[k].req.id in Ids(Live(s)) && es[k].req.id !in Ids(Live(u)) {
      var d := CardOf(es[k].req);
      assert d == Sorted(grown, true)[k];
      SortedIs(grown, true, d);
      assert d in all;
      var i :| 0 <= i < |all| && all[i] == d;
      assert Live(s)[i] in Live(s);
      forall c | c in Live(u) ensures c.id != d.id {
        if c in Sorted(grown, false) { SortedIs(grown, false, c); }
        assert c in all;
        if c.id == d.id {
          SameName(all, c, d);
          NotWaiting(cfg, s, grown, d);
          assert false;
        }
      }
    }
    PassedNames(s, u, grown, all);
  }

  lemma NotWaiting(cfg: Config, s: Sys, grown: seq<Card>, d: Card)
    requires Named(grown + Cards(s.waiting)) && d in grown
    ensures d !in Cards(s.waiting)
  {
    var all := grown + Cards(s.waiting);
    var i :| 0 <= i < |grown| && grown[i] == d;
    assert all[i] == d;
    forall j | 0 <= j < |s.waiting| ensures Cards(s.waiting)[j] != d {
      assert all[|grown| + j] == Cards(s.waiting)[j];
    }
  }

  lemma PassedNames(s: Sys, u: Sys, grown: seq<Card>, all: seq<Card>)
    requires PassedOn(s, u, grown) && all == grown + Cards(s.waiting) && |all| == |Live(s)|
    requires forall i :: 0 <= i < |all| ==> all[i].id == Live(s)[i].id
    ensures Ids(Live(u)) <= Ids(Live(s))
  {
    hide Sorted, Over, Grew, LeftAs;
    forall c | c in Live(u) ensures c.id in Ids(Live(s)) {
      if c in Sorted(grown, false) { SortedIs(grown, false, c); }
      assert c in all;
      var i :| 0 <= i < |all| && all[i] == c;
      assert Live(s)[i] in Live(s);
    }
  }

  lemma SubmitOnce(s: Sys, u: Sys, c: Card)
    requires Once(s) && Live(u) == Live(s) + [c] && c.id == s.nextId && u.done == s.done && u.nextId == s.nextId + 1
    ensures Once(u)
  {
    hide Live;
    forall k {:trigger u.done[k]} | 0 <= k < |u.done| ensures u.done[k].req.id < u.nextId && u.done[k].req.id !in Ids(Live(u)) {
      assert s.done[k].req.id < s.nextId && s.done[k].req.id !in Ids(Live(s));
      forall d | d in Live(u) ensures d.id != u.done[k].req.id {
        assert d in Live(s) || d == c;
      }
      NoName(Live(u), u.done[k].req.id);
    }
  }

  lemma SubmitLive(s: Sys, r: Req)
    ensures Live(s.(waiting := s.waiting + [r], nextId := s.nextId + 1)) == Live(s) + [CardOf(r)]
  {
    CardsConcat(s.waiting, [r]);
  }

  lemma StepOnce(cfg: Config, s: Sys, a: Action)
    requires ConfigOk(cfg) && Inv(cfg, s) && (s.fault || Funded(cfg, s)) && NoneOver(s) && Once(s)
    ensures Once(Step(cfg, s, a))
  {
    hide Inv, Funded, Tick, Forward, Crash, NoneOver, PassedOn, AllDropped, BatchGoes, Removed, Outside, Ids, Once, Live, Departed, Safe;
    if !s.fault {
      match a
      case Submit(prompt, maxTokens, eos) =>
        if prompt != [] {
          SubmitLive(s, NewReq(s, prompt, maxTokens, eos));
          SubmitOnce(s, Step(cfg, s, a), CardOf(NewReq(s, prompt, maxTokens, eos)));
        }
      case Abort(_) => SameOnce(s, Step(cfg, s, a));
      case Start(order) =>
        if s.pc.Idle? { StartOnce(cfg, s, order); }
      case Pass =>
        if !s.pc.Idle? {
          var grown := ForwardLists(cfg, s);
          InvSafe(cfg, s);
          var u := Forward(cfg, s);
          if u.fault {
            SameOnce(s, u);
          } else if BatchGoes(cfg, s) {
            PassedOnce(cfg, s, u, grown);
          } else {
            ForwardNext(cfg, s);
            DroppedOnce(s, u);
          }
        }
      case Fail(k, junk) =>
        if !s.pc.Idle? {
          CrashLists(cfg, s, k, junk);
          CrashNext(cfg, s, k, junk);
          DroppedOnce(s, Crash(cfg, s, k, junk));
        }
    }
  }

  lemma SameOnce(s: Sys, u: Sys)
    requires Once(s) && u.running == s.running && u.waiting == s.waiting && u.done == s.done && u.nextId == s.nextId
    ensures Once(u)
  {
    assert Live(u) == Live(s);
  }

  lemma PassedKept(s: Sys, u: Sys, grown: seq<Card>)
    requires PassedOn(s, u, grown)
    ensures |s.done| <= |u.done| && u.done[..|s.done|] == s.done && u.nextId == s.nextId
  {}

  lemma DoneSplit(s: Sys, u: Sys)
    requires |s.done| <= |u.done| && u.done[..|s.done|] == s.done
    ensures u.done == s.done + u.done[|s.done|..]
  {}

  lemma PassedOnce(cfg: Config, s: Sys, u: Sys, grown: seq<Card>)
    requires ConfigOk(cfg) && Safe(cfg, s) && PassedOn(s, u, grown) && Once(s)
    ensures Once(u)
  {
    PassedKept(s, u, grown);
    hide Safe, Once, Departed, Live, Ids, PassedOn;
    PassedDeparts(cfg, s, u, grown);
    DoneSplit(s, u);
    OnceStep(s, u, u.done[|s.done|..]);
  }

  lemma DroppedOnce(s: Sys, u: Sys)
    requires AllDropped(s, u) && Once(s) && u.nextId == s.nextId
    ensures Once(u)
  {
    LiveNothing(u);
    RemovedDeparts(Live(s), Ids(Live(s)), u.done[|s.done|..], []);
    assert u.done == u.done[..|s.done|] + u.done[|s.done|..];
    hide Once, Departed, Live, Ids, Removed;
    OnceStep(s, u, u.done[|s.done|..]);
  }

  lemma StartOnce(cfg: Config, s: Sys, order: seq<nat>)
    requires ConfigOk(cfg) && Inv(cfg, s) && s.pc.Idle? && Once(s)
    ensures Once(Tick(cfg, s, order))
  {
    hide Inv, Tick, Removed, Outside, Ids, Once, Live, Departed;
    var es := TickClears(cfg, s, order);
    var u := Tick(cfg, s, order);
    TickNext(cfg, s, order);
    RemovedDeparts(Live(s), if u.lost == s.lost then Set(order) else Set(order) + Ids(Live(s)), es, Live(u));
    OnceStep(s, u, es);
  }

  // ---------------------------------------------------------------- names are given out at submission only

  lemma {:induction false} ReleaseNext(cfg: Config, s: Sys, ids: seq<nat>)
    requires ConfigOk(cfg) && Inv(cfg, s) && s.pc.Idle?
    ensures ReleaseAll(cfg, s, ids).nextId == s.nextId
  {
    hide Inv, Release;
  }

  lemma {:induction false} AdmitNextId(cfg: Config, s: Sys, budget: int)
    requires ConfigOk(cfg) && Budgeted(cfg, s, budget)
    ensures AdmitLoop(cfg, s, budget).sys.nextId == s.nextId
    decreases |s.waiting|
  {
    hide Budgeted, Inv, TreeOk, Core, Shape, AdmitOne, Parked, Handles, Need, Safe, Held;
    BudgetedCore(cfg, s, budget);
    if s.waiting != [] {
      AttemptShape(cfg, s, budget);
      AttemptKeeps(cfg, s, budget);
      var a := AdmitOne(cfg, s, budget);
      if a.Admitted? { AdmitNextId(cfg, a.sys, a.budget); }
    }
  }

  lemma {:induction false} PreemptNext(cfg: Config, s: Sys)
    requires ConfigOk(cfg) && Inv(cfg, s) && s.pc.Idle?
    ensures PreemptLoop(cfg, s).nextId == s.nextId
    decreases |s.running|
  {
    hide Inv, UnpinOf, Free;
    if |s.pool.free| < |s.running| {
      PreemptKeeps(cfg, s);
      PreemptNext(cfg, PreemptLast(s));
    }
  }

  lemma TickNext(cfg: Config, s: Sys, order: seq<nat>)
    requires ConfigOk(cfg) && Inv(cfg, s) && s.pc.Idle?
    ensures Tick(cfg, s, order).nextId == s.nextId
  {
    hide Inv, Budgeted, Safe, Funded, AdmitLoop, PreemptLoop, ReleaseAll, FailAll;
    ReleaseNext(cfg, s, order);
    var cleared := ReleaseAll(cfg, s, order).(aborted := {});
    AbortedKeeps(cfg, ReleaseAll(cfg, s, order));
    StartKeeps(cfg, cleared);
    var begun := cleared.(pc := Prefilling(0));
    AdmitNextId(cfg, begun, |cleared.pool.free|);
    var a := AdmitLoop(cfg, begun, |cleared.pool.free|);
    if a.broken {
      FailKeeps(cfg, a.sys);
    } else if a.sys.pc.k == 0 {
      PcKeeps(cfg, a.sys, Idle);
      if a.sys.running != [] { PreemptNext(cfg, a.sys.(pc := Idle)); }
    }
  }

  lemma ForwardNext(cfg: Config, s: Sys)
    requires ConfigOk(cfg) && Inv(cfg, s) && Funded(cfg, s) && !s.pc.Idle? && !s.fault && !BatchGoes(cfg, s)
    ensures Forward(cfg, s).nextId == s.nextId
  {
    hide Inv, Funded, Finishing, Safe, PrepareFrom, Forwarded, FinishFrom, FailAll;
    BatchFresh(cfg, s);
    PrepareAll(cfg, s, BatchStart(s), BatchStart(s), |s.running|, s.pc.Decoding?);
    FailKeeps(cfg, PrepareFrom(cfg, s, BatchStart(s), |s.running|, s.pc.Decoding?).1);
  }

  lemma CrashNext(cfg: Config, s: Sys, k: nat, junk: (nat, nat) -> Cell)
    requires ConfigOk(cfg) && Inv(cfg, s) && Funded(cfg, s) && !s.pc.Idle?
    ensures Crash(cfg, s, k, junk).nextId == s.nextId
  {
    hide Inv, Funded, Safe, PrepareFrom, JunkBatch, FailAll;
    BatchFresh(cfg, s);
    var i := BatchStart(s);
    var upto := if i + k <= |s.running| then i + k else |s.running|;
    PrepareAll(cfg, s, i, i, upto, s.pc.Decoding?);
    var u := PrepareFrom(cfg, s, i, upto, s.pc.Decoding?).1;
    var mem := JunkBatch(cfg, u.mem, u.running[i..], s.pc.Decoding?, junk);
    PreparingSafe(cfg, u, i, upto, s.pc.Decoding?, mem);
    FailKeeps(cfg, u.(mem := mem));
  }

  /** In every reachable state no request has left twice, and none that has left runs or waits. */
  lemma {:induction false} LeavesOnce(cfg: Config, n: nat, acts: seq<Action>)
    requires ConfigOk(cfg)
    ensures Once(Run(cfg, n, acts))
    decreases |acts|
  {
    hide Inv, Funded, Step;
    if acts != [] {
      hide Once;
      LeavesOnce(cfg, n, acts[..|acts| - 1]);
      LeavesAtOnce(cfg, n, acts[..|acts| - 1]);
      StepOnce(cfg, Run(cfg, n, acts[..|acts| - 1]), acts[|acts| - 1]);
    }
  }
}
