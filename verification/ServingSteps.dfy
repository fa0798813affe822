/**
 What each step of the serving loop does to the requests, said of the lists alone: who leaves and how,
 who runs, who waits, and what the loop waits for next.
 */
module ServingSteps {
  import opened Basics
  import opened Tokens
  import opened PoolSpec
  import opened CacheSpec
  import opened RadixSpec
  import opened RadixUpdate
  import opened RadixInsertEvict
  import opened ServingState
  import opened ServingCore
  import opened Serving
  import opened ServingAdmit
  import opened ServingForward
  import opened ServingRun
  import opened ServingTheorems
  import opened ServingSolo
  import opened ServingSound
  import opened ServingCards
  import opened ServingKept

  // ---------------------------------------------------------------- dropping everything

  function Ids(cs: seq<Card>): (r: set<nat>)
    ensures forall c :: c in cs ==> c.id in r
  {
    set c | c in cs :: c.id
  }

  lemma {:induction false} OutsideAll(cs: seq<Card>, ids: set<nat>)
    requires forall c :: c in cs ==> c.id in ids
    ensures Outside(cs, ids) == []
  {
    if cs != [] {
      assert cs[0] in cs;
      OutsideAll(cs[1..], ids);
    }
  }

  /** Everything leaves: after one release the others still have to. */
  lemma RemovedRest(live: seq<Card>, id: nat, es: seq<Ended>, rest: seq<Card>, fs: seq<Ended>)
    requires Removed(live, {id}, es) && rest == Outside(live, {id}) && Removed(rest, Ids(rest), fs)
    ensures Removed(live, Ids(live), es + fs)
  {
    hide Outside;
    forall c ensures c in rest <==> c in live && c.id !in {id} { OutsideIs(live, {id}, c); }
    RemovedJoin(live, {id}, es, Ids(rest), fs);
    var all := es + fs;
    forall c | c in live && c.id in Ids(live) ensures exists k :: 0 <= k < |all| && CardOf(all[k].req) == c {
      assert c.id in {id} + Ids(rest);
    }
  }

  lemma OutsideLive(s: Sys, id: nat)
    ensures Outside(Live(s), {id}) == Outside(Cards(s.running), {id}) + Outside(Cards(s.waiting), {id})
  {
    OutsideConcat(Cards(s.running), Cards(s.waiting), {id});
  }

  /** Failing drops every request, each once, with what it had generated. */
  lemma {:induction false} FailLists(cfg: Config, s: Sys) returns (es: seq<Ended>)
    requires ConfigOk(cfg) && Safe(cfg, s)
    ensures FailAll(cfg, s).done == s.done + es && Removed(Live(s), Ids(Live(s)), es)
    decreases |s.running|, |s.waiting|
  {
    hide Safe, Inv, ReleaseRunning, ReleaseWaiting, FailAll, Removed, Live, Cards, Outside, Ids;
    if s.running != [] {
      FailRunning(cfg, s);
      var fs := RunningLeaves(cfg, s, 0);
      var v := ReleaseRunning(s, 0);
      var gs := FailLists(cfg, v);
      OutsideLive(s, s.running[0].id);
      LiveIs(v);
      RemovedRest(Live(s), s.running[0].id, fs, Live(v), gs);
      es := fs + gs;
      assert (s.done + fs) + gs == s.done + es;
    } else if s.waiting != [] {
      FailWaiting(cfg, s);
      var fs := WaitingLeaves(cfg, s, 0);
      var v := ReleaseWaiting(s, 0);
      var gs := FailLists(cfg, v);
      OutsideLive(s, s.waiting[0].id);
      LiveIs(v);
      RemovedRest(Live(s), s.waiting[0].id, fs, Live(v), gs);
      es := fs + gs;
      assert (s.done + fs) + gs == s.done + es;
    } else {
      FailEmpty(cfg, s);
      es := [];
      assert s.done + [] == s.done;
      LiveNothing(s);
      RemovedNone(Live(s), Ids(Live(s)));
    }
  }

  lemma LiveIs(s: Sys)
    ensures Live(s) == Cards(s.running) + Cards(s.waiting)
  {}

  lemma LiveNothing(s: Sys)
    requires s.running == [] && s.waiting == []
    ensures Live(s) == []
  {}

  // ---------------------------------------------------------------- a tick

  /** The tick's admission starts from here. */
  lemma TickParts(cfg: Config, s: Sys, order: seq<nat>) returns (es: seq<Ended>, b: Sys, j: nat)
    requires ConfigOk(cfg) && Inv(cfg, s) && s.pc.Idle?
    ensures Cards(b.running) == Outside(Cards(s.running), Set(order)) && Cards(b.waiting) == Outside(Cards(s.waiting), Set(order))
    ensures b.done == s.done + es && Removed(Live(s), Set(order), es) && b.lost == s.lost && b.aborted == {}
    ensures var a := Settled(cfg, s, order);
      && Moved(b, a.sys, j) && a.sys.done == b.done && a.sys.aborted == {}
      && (!a.broken ==> a.sys.pc == Prefilling(j) && a.sys.lost == s.lost)
  {
    hide Inv, Budgeted, AdmitLoop, Removed, Outside, Cards, Live, Set, Moved;
    es := ClearLists(cfg, s, order);
    var cleared := ReleaseAll(cfg, s, order).(aborted := {});
    AbortedKeeps(cfg, ReleaseAll(cfg, s, order));
    StartKeeps(cfg, cleared);
    b := cleared.(pc := Prefilling(0));
    j := AdmitLists(cfg, b, |b.pool.free|);
  }

  lemma LiveOutside(s: Sys, b: Sys, ids: set<nat>)
    requires Cards(b.running) == Outside(Cards(s.running), ids) && Cards(b.waiting) == Outside(Cards(s.waiting), ids)
    ensures Live(b) == Outside(Live(s), ids)
  {
    hide Cards, Outside;
    OutsideConcat(Cards(s.running), Cards(s.waiting), ids);
  }

  lemma DoneTwice(done: seq<Ended>, a: seq<Ended>, b: seq<Ended>)
    ensures (done + a) + b == done + (a + b)
  {}

  /** A broken tick drops all that is left, and loses references. */
  lemma BrokenTick(cfg: Config, s: Sys, order: seq<nat>) returns (es: seq<Ended>)
    requires ConfigOk(cfg) && Inv(cfg, s) && s.pc.Idle? && Settled(cfg, s, order).broken
    ensures var u := Tick(cfg, s, order);
      && u.pc.Idle? && u.running == [] && u.waiting == [] && u.lost != s.lost && u.aborted == {}
      && u.done == s.done + es && Removed(Live(s), Set(order) + Ids(Live(s)), es)
  {
    hide Inv, Budgeted, AdmitLoop, Removed, Outside, Cards, Live, Set, Moved, Safe, FailAll, Ids;
    var fs, b, j := TickParts(cfg, s, order);
    LiveOutside(s, b, Set(order));
    MovedLive(b, Settled(cfg, s, order).sys, j);
    TickLost(cfg, s, order);
    BrokenLoses(cfg, s, order);
    BrokenFails(cfg, s, order);
    hide Tick, Settled;
    var a := Settled(cfg, s, order).sys;
    var gs := FailLists(cfg, a);
    FailKeeps(cfg, a);
    es := fs + gs;
    DoneTwice(s.done, fs, gs);
    BrokenRemoved(Live(s), Set(order), fs, Live(a), gs);
  }

  lemma BrokenFails(cfg: Config, s: Sys, order: seq<nat>)
    requires ConfigOk(cfg) && Inv(cfg, s) && s.pc.Idle? && Settled(cfg, s, order).broken
    ensures Safe(cfg, Settled(cfg, s, order).sys) && Tick(cfg, s, order) == FailAll(cfg, Settled(cfg, s, order).sys)
  {
    hide Inv, Budgeted, AdmitLoop, Safe, FailAll;
  }

  lemma BrokenRemoved(live: seq<Card>, ids: set<nat>, es: seq<Ended>, rest: seq<Card>, fs: seq<Ended>)
    requires Removed(live, ids, es) && rest == Outside(live, ids) && Removed(rest, Ids(rest), fs)
    ensures Removed(live, ids + Ids(live), es + fs)
  {
    hide Outside;
    forall c ensures c in rest <==> c in live && c.id !in ids { OutsideIs(live, ids, c); }
    RemovedJoin(live, ids, es, Ids(rest), fs);
    var all := es + fs;
    forall c | c in live && c.id in ids + Ids(live) ensures exists k :: 0 <= k < |all| && CardOf(all[k].req) == c {
      assert c.id in ids + Ids(rest);
    }
  }

  lemma BrokenLoses(cfg: Config, s: Sys, order: seq<nat>)
    requires ConfigOk(cfg) && Inv(cfg, s) && s.pc.Idle?
    ensures Settled(cfg, s, order).broken <==> LostBy(cfg, s, order) != []
  {
    hide Inv, Budgeted, AdmitLoop, Overrun;
    var cleared := ReleaseAll(cfg, s, order).(aborted := {});
    AbortedKeeps(cfg, ReleaseAll(cfg, s, order));
    StartKeeps(cfg, cleared);
    AdmitLoopLost(cfg, cleared.(pc := Prefilling(0)), |cleared.pool.free|);
  }

  lemma {:induction false} FailKeeps(cfg: Config, s: Sys)
    requires ConfigOk(cfg) && Safe(cfg, s)
    ensures FailAll(cfg, s).aborted == s.aborted && FailAll(cfg, s).nextId == s.nextId
    decreases |s.running|, |s.waiting|
  {
    hide Safe, Inv, FailAll, Free, UnpinOf;
    if s.running != [] {
      FailRunning(cfg, s);
      FailKeeps(cfg, ReleaseRunning(s, 0));
    } else if s.waiting != [] {
      FailWaiting(cfg, s);
      FailKeeps(cfg, ReleaseWaiting(s, 0));
    } else {
      FailEmpty(cfg, s);
    }
  }

  /** Where a tick that does not break off ends: `j` requests admitted, or none and some still running, or neither. */
  lemma SoundTick(cfg: Config, s: Sys, order: seq<nat>) returns (es: seq<Ended>, b: Sys, j: nat)
    requires ConfigOk(cfg) && Inv(cfg, s) && s.pc.Idle? && !Settled(cfg, s, order).broken
    ensures Cards(b.running) == Outside(Cards(s.running), Set(order)) && Cards(b.waiting) == Outside(Cards(s.waiting), Set(order))
    ensures var u, v := Tick(cfg, s, order), Settled(cfg, s, order).sys;
      && u.lost == s.lost && u.aborted == {} && u.done == s.done + es && Removed(Live(s), Set(order), es)
      && Moved(b, v, j)
      && (j > 0 ==> u == v && u.pc == Prefilling(j))
      && (j == 0 && b.running == [] ==> u.pc.Idle? && u.running == [] && u.waiting == b.waiting)
      && (j == 0 && b.running != [] ==>
            u.pc.Decoding? && MostKept(v, |u.running|) && u.running == b.running[..|u.running|]
            && u.waiting == Requeued(b.running[|u.running|..]) + b.waiting)
  {
    hide Inv, Budgeted, AdmitLoop, Removed, Outside, Cards, Live, Set, Safe, FreeWithout, PreemptLoop;
    es, b, j := TickParts(cfg, s, order);
    var v := Settled(cfg, s, order).sys;
    if j == 0 {
      assert v.running == b.running && v.waiting == b.waiting by { assert b.waiting[0..] == b.waiting; }
      SettledInv(cfg, s, order);
      PcKeeps(cfg, v, Idle);
      var idle := v.(pc := Idle);
      if idle.running != [] {
        PreemptExact(cfg, idle);
        KeptSame(idle, v, |PreemptLoop(cfg, idle).running|);
      }
    }
  }

  lemma SettledInv(cfg: Config, s: Sys, order: seq<nat>)
    requires ConfigOk(cfg) && Inv(cfg, s) && s.pc.Idle? && !Settled(cfg, s, order).broken
    ensures var v := Settled(cfg, s, order).sys; Inv(cfg, v) && v.pc.Prefilling? && PendingCount(v) == v.pc.k
  {
    hide Inv, Budgeted, AdmitLoop;
    var cleared := ReleaseAll(cfg, s, order).(aborted := {});
    AbortedKeeps(cfg, ReleaseAll(cfg, s, order));
    StartKeeps(cfg, cleared);
  }

  lemma KeptSame(s: Sys, u: Sys, m: nat)
    requires MostKept(s, m) && s.running == u.running && s.pool == u.pool
    ensures MostKept(u, m)
  {
    forall j {:trigger FreeWithout(u, j)} | m <= j <= |s.running| ensures FreeWithout(u, j) == FreeWithout(s, j) {}
  }

  /** The lists after preemption hold the same requests. */
  lemma PreemptedLive(b: Sys, u: Sys)
    requires |u.running| <= |b.running| && u.running == b.running[..|u.running|]
    requires u.waiting == Requeued(b.running[|u.running|..]) + b.waiting
    ensures Live(u) == Live(b)
  {
    var m := |u.running|;
    assert b.running == b.running[..m] + b.running[m..];
    assert Cards(Requeued(b.running[m..])) == Cards(b.running[m..]);
    hide Cards, Requeued;
    CardsConcat(b.running[..m], b.running[m..]);
    CardsConcat(Requeued(b.running[m..]), b.waiting);
    CutAll(Cards(b.running[..m]), Cards(b.running[m..]), Cards(b.waiting));
  }

  // ---------------------------------------------------------------- what a tick does, over runs

  /** `order` is a way to walk the aborted set, and the loop is about to start a tick. */
  ghost predicate MayStart(s: Sys, order: seq<nat>) {
    !s.fault && s.pc.Idle? && Set(order) == s.aborted
  }

  lemma StartStep(cfg: Config, n: nat, acts: seq<Action>, order: seq<nat>)
    requires ConfigOk(cfg) && MayStart(Run(cfg, n, acts), order)
    ensures Run(cfg, n, acts + [Start(order)]) == Tick(cfg, Run(cfg, n, acts), order)
  {
    hide Run, Inv, Funded, Tick;
    RunMore(cfg, n, acts, Start(order));
  }

  /**
   Aborted requests go away, and nobody else. After a tick the aborted set is empty and no request in it runs
   or waits. Unless admission broke off, those of them that had not left have now left, each once, not
   normally, with what they had generated, and all others live on in the same order. When admission broke
   off, which shows in lost references, every request has left in that way.
   */
  lemma StartClears(cfg: Config, n: nat, acts: seq<Action>, order: seq<nat>)
    requires ConfigOk(cfg) && MayStart(Run(cfg, n, acts), order)
    ensures var s, u := Run(cfg, n, acts), Run(cfg, n, acts + [Start(order)]);
      && u.aborted == {} && |s.done| <= |u.done| && u.done[..|s.done|] == s.done
      && (forall i :: 0 <= i < |u.running| ==> u.running[i].id !in order)
      && (forall i :: 0 <= i < |u.waiting| ==> u.waiting[i].id !in order)
      && (if u.lost == s.lost
          then Removed(Live(s), s.aborted, u.done[|s.done|..]) && Live(u) == Outside(Live(s), s.aborted)
          else Removed(Live(s), s.aborted + Ids(Live(s)), u.done[|s.done|..]) && Live(u) == [])
  {
    hide Run, Inv, Funded, Tick, Removed, Outside, Live, Ids, Set, Settled;
    StartStep(cfg, n, acts, order);
    var s := Run(cfg, n, acts);
    var es := TickClears(cfg, s, order);
    var u := Tick(cfg, s, order);
    assert u.done[..|s.done|] == s.done && u.done[|s.done|..] == es;
    NoneAborted(s, u, order);
  }

  lemma SetIn(ids: seq<nat>, id: nat)
    ensures id in Set(ids) <==> id in ids
  {}

  lemma NoneAborted(s: Sys, u: Sys, order: seq<nat>)
    requires Live(u) == Outside(Live(s), Set(order)) || Live(u) == []
    ensures forall i :: 0 <= i < |u.running| ==> u.running[i].id !in order
    ensures forall i :: 0 <= i < |u.waiting| ==> u.waiting[i].id !in order
  {
    hide Outside, Live, Set;
    forall c: Card | c in Live(u) ensures c.id !in order {
      OutsideIs(Live(s), Set(order), c);
      SetIn(order, c.id);
    }
    forall i | 0 <= i < |u.running| ensures u.running[i].id !in order { LiveAt(u, u.running[i]); }
    forall i | 0 <= i < |u.waiting| ensures u.waiting[i].id !in order { LiveAt(u, u.waiting[i]); }
  }

  lemma TickClears(cfg: Config, s: Sys, order: seq<nat>) returns (es: seq<Ended>)
    requires ConfigOk(cfg) && Inv(cfg, s) && s.pc.Idle?
    ensures var u := Tick(cfg, s, order);
      && u.aborted == {} && u.done == s.done + es
      && (if u.lost == s.lost
          then Removed(Live(s), Set(order), es) && Live(u) == Outside(Live(s), Set(order))
          else Removed(Live(s), Set(order) + Ids(Live(s)), es) && Live(u) == [])
  {
    hide Inv, Tick, Removed, Outside, Cards, Live, Ids, Set, Settled, Moved, MostKept, Requeued;
    var u := Tick(cfg, s, order);
    if Settled(cfg, s, order).broken {
      es := BrokenTick(cfg, s, order);
      LiveNothing(u);
    } else {
      var b, j;
      es, b, j := SoundTick(cfg, s, order);
      LiveOutside(s, b, Set(order));
      LiveIs(b);
      LiveIs(u);
      if j > 0 {
        MovedLive(b, u, j);
      } else if b.running == [] {
      } else {
        KeptSize(cfg, s, order, b, j);
        PreemptedLive(b, u);
      }
    }
  }

  lemma KeptSize(cfg: Config, s: Sys, order: seq<nat>, b: Sys, j: nat)
    requires ConfigOk(cfg) && Inv(cfg, s) && s.pc.Idle?
    requires var u, v := Tick(cfg, s, order), Settled(cfg, s, order).sys; Moved(b, v, j) && j == 0 && MostKept(v, |u.running|)
    ensures |Tick(cfg, s, order).running| <= |b.running|
  {
    hide Inv, Tick, Settled;
  }

  /**
   Where a tick ends. It goes back to waiting for clients exactly when admission broke off, or nothing of
   what ran is left and nobody was admitted. When some were admitted they are the first of the queue, and they run
   last. Otherwise those that ran decode, the oldest of them, and the others are back at the front of the queue.
   */
  lemma StartEnds(cfg: Config, n: nat, acts: seq<Action>, order: seq<nat>)
    requires ConfigOk(cfg) && MayStart(Run(cfg, n, acts), order)
    ensures var s, u := Run(cfg, n, acts), Run(cfg, n, acts + [Start(order)]);
      var runs, waits := Outside(Cards(s.running), s.aborted), Outside(Cards(s.waiting), s.aborted);
      && (u.pc.Idle? <==> u.lost != s.lost || (runs == [] && u.running == []))
      && (u.lost == s.lost ==> match u.pc
            case Prefilling(k) => 0 < k <= |waits| && Cards(u.running) == runs + waits[..k] && Cards(u.waiting) == waits[k..]
            case Decoding =>
              var m := |u.running|; m <= |runs| && runs != [] && Cards(u.running) == runs[..m] && Cards(u.waiting) == runs[m..] + waits
            case Idle => Cards(u.waiting) == waits)
  {
    hide Run, Inv, Funded, Tick, Outside, Cards, Set;
    StartStep(cfg, n, acts, order);
    TickEnds(cfg, Run(cfg, n, acts), order);
  }

  /** The lists after a tick, against those that are left of `runs` and `waits`. */
  ghost predicate EndsWell(u: Sys, runs: seq<Card>, waits: seq<Card>) {
    && (u.pc.Idle? <==> runs == [] && u.running == [])
    && match u.pc
       case Prefilling(k) => 0 < k <= |waits| && Cards(u.running) == runs + waits[..k] && Cards(u.waiting) == waits[k..]
       case Decoding =>
         var m := |u.running|; m <= |runs| && runs != [] && Cards(u.running) == runs[..m] && Cards(u.waiting) == runs[m..] + waits
       case Idle => Cards(u.waiting) == waits
  }

  lemma TickEnds(cfg: Config, s: Sys, order: seq<nat>)
    requires ConfigOk(cfg) && Inv(cfg, s) && s.pc.Idle?
    ensures var u := Tick(cfg, s, order);
      if u.lost != s.lost then u.pc.Idle?
      else EndsWell(u, Outside(Cards(s.running), Set(order)), Outside(Cards(s.waiting), Set(order)))
  {
    hide Inv, Tick, Removed, Outside, Cards, Live, Ids, Set, Settled, Moved, MostKept, Requeued, EndsWell;
    var u := Tick(cfg, s, order);
    if Settled(cfg, s, order).broken {
      var es := BrokenTick(cfg, s, order);
    } else {
      var es, b, j := SoundTick(cfg, s, order);
      if j > 0 {
        MovedEnds(b, u, j);
      } else if b.running == [] {
        IdleEnds(b, u);
      } else {
        KeptSize(cfg, s, order, b, j);
        DecodingEnds(b, u);
      }
    }
  }

  lemma MovedEnds(b: Sys, u: Sys, j: nat)
    requires Moved(b, u, j) && j > 0 && u.pc == Prefilling(j)
    ensures EndsWell(u, Cards(b.running), Cards(b.waiting))
  {
    assert u.running == b.running + u.running[|b.running|..];
    CardsConcat(b.running, u.running[|b.running|..]);
    assert Cards(b.waiting[..j]) == Cards(b.waiting)[..j];
    assert Cards(b.waiting[j..]) == Cards(b.waiting)[j..];
  }

  lemma IdleEnds(b: Sys, u: Sys)
    requires u.pc.Idle? && u.running == [] && b.running == [] && u.waiting == b.waiting
    ensures EndsWell(u, Cards(b.running), Cards(b.waiting))
  {}

  lemma DecodingEnds(b: Sys, u: Sys)
    requires u.pc.Decoding? && b.running != [] && |u.running| <= |b.running| && u.running == b.running[..|u.running|]
    requires u.waiting == Requeued(b.running[|u.running|..]) + b.waiting
    ensures EndsWell(u, Cards(b.running), Cards(b.waiting))
  {
    var m := |u.running|;
    assert Cards(b.running[..m]) == Cards(b.running)[..m];
    CardsConcat(Requeued(b.running[m..]), b.waiting);
    assert Cards(Requeued(b.running[m..])) == Cards(b.running)[m..];
  }

  /**
   A tick that ends in a decode has preempted nobody it could have kept: the requests that decode are the
   most, oldest first, of those that run once clearing and admission are done.
   */
  lemma DecodesMost(cfg: Config, n: nat, acts: seq<Action>, order: seq<nat>)
    requires ConfigOk(cfg) && MayStart(Run(cfg, n, acts), order) && Run(cfg, n, acts + [Start(order)]).pc.Decoding?
    ensures var v, u := Settled(cfg, Run(cfg, n, acts), order).sys, Run(cfg, n, acts + [Start(order)]);
      && MostKept(v, |u.running|) && u.running == v.running[..|u.running|]
      && u.waiting == Requeued(v.running[|u.running|..]) + v.waiting
      && Cards(v.running) == Outside(Cards(Run(cfg, n, acts).running), Run(cfg, n, acts).aborted)
  {
    hide Run, Inv, Funded, Tick, Outside, Cards, Set, Settled, MostKept, Removed, Live;
    StartStep(cfg, n, acts, order);
    var s := Run(cfg, n, acts);
    if Settled(cfg, s, order).broken {
      var es := BrokenTick(cfg, s, order);
    } else {
      var es, b, j := SoundTick(cfg, s, order);
      MovedZero(b, Settled(cfg, s, order).sys, j);
    }
  }

  lemma MovedZero(b: Sys, v: Sys, j: nat)
    requires Moved(b, v, j)
    ensures j == 0 ==> v.running == b.running && v.waiting == b.waiting
  {}
}
