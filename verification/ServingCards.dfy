/**
 Requests as their clients see them: a name, what was asked for and what has been generated. What the
 parts of a tick do to the lists of requests, whatever happens to blocks, pins and caches.
 */
module ServingCards {
  import opened Basics
  import opened Tokens
  import opened PoolSpec
  import opened CacheSpec
  import opened RadixSpec
  import opened RadixUpdate
  import opened RadixInsertEvict
  import opened ServingState
  import opened ServingCore
  import opened Serving
  import opened ServingAdmit
  import opened ServingForward
  import opened ServingRun
  import opened ServingPreempt

  datatype Card = Card(id: nat, prompt: seq<Token>, gen: seq<Token>, maxTokens: int, eos: Token)

  function CardOf(r: Req): Card {
    Card(r.id, r.prompt, r.gen, r.maxTokens, r.eos)
  }

  function Cards(rs: seq<Req>): (cs: seq<Card>)
    ensures |cs| == |rs| && forall i :: 0 <= i < |rs| ==> cs[i] == CardOf(rs[i])
  {
    seq(|rs|, i requires 0 <= i < |rs| => CardOf(rs[i]))
  }

  /** All requests that have not left, oldest first. */
  function Live(s: Sys): seq<Card> {
    Cards(s.running) + Cards(s.waiting)
  }

  /** The cards whose names are not in `ids`, in order. */
  function Outside(cs: seq<Card>, ids: set<nat>): (r: seq<Card>)
    ensures |r| <= |cs|
  {
    if cs == [] then [] else (if cs[0].id in ids then [] else [cs[0]]) + Outside(cs[1..], ids)
  }

  ghost predicate Named(cs: seq<Card>) {
    forall i, j :: 0 <= i < j < |cs| ==> cs[i].id != cs[j].id
  }

  lemma CardsConcat(a: seq<Req>, b: seq<Req>)
    ensures Cards(a + b) == Cards(a) + Cards(b)
  {}

  lemma {:induction false} OutsideConcat(a: seq<Card>, b: seq<Card>, ids: set<nat>)
    ensures Outside(a + b, ids) == Outside(a, ids) + Outside(b, ids)
  {
    if a == [] {
      assert a + b == b;
    } else {
      assert (a + b)[1..] == a[1..] + b;
      OutsideConcat(a[1..], b, ids);
    }
  }

  /** Exactly the cards outside `ids` remain. */
  lemma {:induction false} OutsideIs(cs: seq<Card>, ids: set<nat>, c: Card)
    ensures c in Outside(cs, ids) <==> c in cs && c.id !in ids
  {
    if cs != [] {
      OutsideIs(cs[1..], ids, c);
      assert cs == [cs[0]] + cs[1..];
    }
  }

  lemma {:induction false} OutsideNone(cs: seq<Card>, ids: set<nat>)
    requires forall i :: 0 <= i < |cs| ==> cs[i].id !in ids
    ensures Outside(cs, ids) == cs
  {
    if cs != [] {
      OutsideNone(cs[1..], ids);
      assert cs == [cs[0]] + cs[1..];
    }
  }

  lemma {:induction false} OutsideBoth(cs: seq<Card>, a: set<nat>, b: set<nat>)
    ensures Outside(Outside(cs, a), b) == Outside(cs, a + b)
  {
    if cs != [] {
      OutsideBoth(cs[1..], a, b);
      OutsideConcat(if cs[0].id in a then [] else [cs[0]], Outside(cs[1..], a), b);
    }
  }

  lemma OthersNamed(cs: seq<Card>, i: nat)
    requires Named(cs) && i < |cs|
    ensures Foreign(cs[..i], cs[i].id) && Foreign(cs[i + 1..], cs[i].id)
  {}

  /** No card is called `id`. */
  ghost predicate Foreign(cs: seq<Card>, id: nat) {
    forall j {:trigger cs[j]} :: 0 <= j < |cs| ==> cs[j].id != id
  }

  lemma ForeignStays(cs: seq<Card>, id: nat)
    requires Foreign(cs, id)
    ensures Outside(cs, {id}) == cs
  {
    OutsideNone(cs, {id});
  }

  lemma CutThree(cs: seq<Card>, i: nat)
    requires i < |cs|
    ensures cs == cs[..i] + cs[i..] && cs[i..] != [] && cs[i..][0] == cs[i] && cs[i..][1..] == cs[i + 1..]
  {}

  /** Taking one card out of a list of distinct names. */
  lemma OutsideOne(cs: seq<Card>, i: nat)
    requires Named(cs) && i < |cs|
    ensures Outside(cs, {cs[i].id}) == cs[..i] + cs[i + 1..]
  {
    hide Outside, Named, Foreign;
    var id := cs[i].id;
    OthersNamed(cs, i);
    CutThree(cs, i);
    OutsideHead(cs[i..], {id});
    OutsideConcat(cs[..i], cs[i..], {id});
    ForeignStays(cs[..i], id);
    ForeignStays(cs[i + 1..], id);
  }

  lemma OutsideHead(cs: seq<Card>, ids: set<nat>)
    requires cs != [] && cs[0].id in ids
    ensures Outside(cs, ids) == Outside(cs[1..], ids)
  {}

  lemma LiveNamed(cfg: Config, s: Sys)
    requires ConfigOk(cfg) && Safe(cfg, s)
    ensures Named(Live(s)) && Named(Cards(s.running)) && Named(Cards(s.waiting))
    ensures forall i, j :: 0 <= i < |s.running| && 0 <= j < |s.waiting| ==> s.running[i].id != s.waiting[j].id
  {
    var all := s.running + s.waiting;
    OrderOf(cfg, s);
    CardsConcat(s.running, s.waiting);
    OrderNamed(all, s.nextId);
    hide Safe, InOrder, Cards;
    PartsNamed(Cards(s.running), Cards(s.waiting));
    forall i, j | 0 <= i < |s.running| && 0 <= j < |s.waiting| ensures s.running[i].id != s.waiting[j].id {
      assert Live(s)[i] == CardOf(s.running[i]) && Live(s)[|s.running| + j] == CardOf(s.waiting[j]);
    }
  }

  lemma OrderOf(cfg: Config, s: Sys)
    requires ConfigOk(cfg) && Safe(cfg, s)
    ensures InOrder(s.running + s.waiting, s.nextId)
  {
    hide Core, InOrder;
  }

  lemma OrderNamed(rs: seq<Req>, next: nat)
    requires InOrder(rs, next)
    ensures Named(Cards(rs))
  {
    forall i, j | 0 <= i < j < |rs| ensures Cards(rs)[i].id != Cards(rs)[j].id { assert rs[i].id < rs[j].id; }
  }

  lemma PartsNamed(a: seq<Card>, b: seq<Card>)
    requires Named(a + b)
    ensures Named(a) && Named(b)
  {
    forall i, j | 0 <= i < j < |a| ensures a[i].id != a[j].id { assert (a + b)[i] == a[i] && (a + b)[j] == a[j]; }
    forall i, j | 0 <= i < j < |b| ensures b[i].id != b[j].id { assert (a + b)[|a| + i] == b[i] && (a + b)[|a| + j] == b[j]; }
  }

  // ---------------------------------------------------------------- requests that leave

  /** The requests of `live` named in `ids`, and no others, have just left, each once, with what they had generated. */
  ghost predicate Removed(live: seq<Card>, ids: set<nat>, es: seq<Ended>) {
    && (forall k {:trigger es[k]} :: 0 <= k < |es| ==> !es[k].normal && es[k].req.id in ids && CardOf(es[k].req) in live)
    && (forall c :: c in live && c.id in ids ==> exists k :: 0 <= k < |es| && CardOf(es[k].req) == c)
    && (forall k, l {:trigger es[k], es[l]} :: 0 <= k < l < |es| ==> es[k].req.id != es[l].req.id)
  }

  lemma RemovedNone(live: seq<Card>, ids: set<nat>)
    requires forall c :: c in live ==> c.id !in ids
    ensures Removed(live, ids, [])
  {}

  lemma RemovedOne(live: seq<Card>, e: Ended)
    requires Named(live) && !e.normal && CardOf(e.req) in live
    ensures Removed(live, {e.req.id}, [e])
  {
    forall c | c in live && c.id in {e.req.id} ensures CardOf([e][0].req) == c {
      var i :| 0 <= i < |live| && live[i] == CardOf(e.req);
      var j :| 0 <= j < |live| && live[j] == c;
    }
  }

  lemma RemovedJoin(live: seq<Card>, a: set<nat>, es: seq<Ended>, b: set<nat>, fs: seq<Ended>)
    requires Removed(live, a, es) && Removed(Outside(live, a), b, fs)
    ensures Removed(live, a + b, es + fs)
  {
    var all := es + fs;
    forall c ensures c in Outside(live, a) <==> c in live && c.id !in a { OutsideIs(live, a, c); }
    forall k {:trigger all[k]} | 0 <= k < |all|
      ensures !all[k].normal && all[k].req.id in a + b && CardOf(all[k].req) in live
    {
      if k >= |es| { assert all[k] == fs[k - |es|]; }
    }
    forall c | c in live && c.id in a + b ensures exists k :: 0 <= k < |all| && CardOf(all[k].req) == c {
      if c.id in a {
        var k :| 0 <= k < |es| && CardOf(es[k].req) == c;
        assert all[k] == es[k];
      } else {
        var k :| 0 <= k < |fs| && CardOf(fs[k].req) == c;
        assert all[|es| + k] == fs[k];
      }
    }
    forall k, l {:trigger all[k], all[l]} | 0 <= k < l < |all| ensures all[k].req.id != all[l].req.id {
      if k >= |es| {
        assert all[k] == fs[k - |es|] && all[l] == fs[l - |es|];
      } else if l >= |es| {
        assert all[k] == es[k] && all[l] == fs[l - |es|];
        assert CardOf(fs[l - |es|].req) in Outside(live, a);
      }
    }
  }

  // ---------------------------------------------------------------- clearing aborted requests

  /** Without the request at `i`. */
  lemma CutCards(rs: seq<Req>, i: nat)
    requires i < |rs| && Named(Cards(rs))
    ensures Cards(rs[..i] + rs[i + 1..]) == Outside(Cards(rs), {rs[i].id})
  {
    OutsideOne(Cards(rs), i);
    assert Cards(rs[..i] + rs[i + 1..]) == Cards(rs)[..i] + Cards(rs)[i + 1..];
  }

  lemma NotIn(rs: seq<Req>, id: nat)
    requires forall i :: 0 <= i < |rs| ==> rs[i].id != id
    ensures Outside(Cards(rs), {id}) == Cards(rs)
  {
    OutsideNone(Cards(rs), {id});
  }

  lemma LiveAt(s: Sys, r: Req)
    requires r in s.running || r in s.waiting
    ensures CardOf(r) in Live(s)
  {
    if r in s.running {
      var i :| 0 <= i < |s.running| && s.running[i] == r;
      assert Live(s)[i] == CardOf(r);
    } else {
      var i :| 0 <= i < |s.waiting| && s.waiting[i] == r;
      assert Live(s)[|s.running| + i] == CardOf(r);
    }
  }

  lemma RunningLeaves(cfg: Config, s: Sys, i: nat) returns (es: seq<Ended>)
    requires ConfigOk(cfg) && Safe(cfg, s) && i < |s.running| && (s.running[i].pin.Some? ==> s.running[i].pin.value in s.tree.nodes)
    ensures var u, ids := ReleaseRunning(s, i), {s.running[i].id};
      && Cards(u.running) == Outside(Cards(s.running), ids) && Cards(u.waiting) == Outside(Cards(s.waiting), ids)
      && u.done == s.done + es && Removed(Live(s), ids, es) && u.lost == s.lost
  {
    LiveNamed(cfg, s);
    hide Safe, Free, UnpinOf, Outside, Removed, Named, Live, Cards;
    CutCards(s.running, i);
    NotIn(s.waiting, s.running[i].id);
    es := [Ended(Cleared(s.running[i], Finished), false)];
    LiveAt(s, s.running[i]);
    RemovedOne(Live(s), es[0]);
  }

  lemma WaitingLeaves(cfg: Config, s: Sys, j: nat) returns (es: seq<Ended>)
    requires ConfigOk(cfg) && Safe(cfg, s) && j < |s.waiting|
    ensures var u, ids := ReleaseWaiting(s, j), {s.waiting[j].id};
      && Cards(u.running) == Outside(Cards(s.running), ids) && Cards(u.waiting) == Outside(Cards(s.waiting), ids)
      && u.done == s.done + es && Removed(Live(s), ids, es) && u.lost == s.lost
  {
    LiveNamed(cfg, s);
    hide Safe, Outside, Removed, Named, Live, Cards;
    CutCards(s.waiting, j);
    NotIn(s.running, s.waiting[j].id);
    es := [Ended(s.waiting[j].(phase := Finished), false)];
    LiveAt(s, s.waiting[j]);
    RemovedOne(Live(s), es[0]);
  }

  /** `_release` of one request: it leaves the list it is in, and nothing else changes place. */
  lemma ReleaseLists(cfg: Config, s: Sys, id: nat) returns (es: seq<Ended>)
    requires ConfigOk(cfg) && Inv(cfg, s) && s.pc.Idle?
    ensures var u := Release(cfg, s, id);
      && Cards(u.running) == Outside(Cards(s.running), {id}) && Cards(u.waiting) == Outside(Cards(s.waiting), {id})
      && u.done == s.done + es && Removed(Live(s), {id}, es) && u.lost == s.lost
  {
    hide Inv, Outside, Removed, Live, Safe, Cards, ReleaseRunning, ReleaseWaiting;
    InvSafe(cfg, s);
    var i, j := Index(s.running, id), Index(s.waiting, id);
    if i >= 0 {
      ReleaseRunningKeeps(cfg, s, i);
      es := RunningLeaves(cfg, s, i);
    } else if j >= 0 {
      es := WaitingLeaves(cfg, s, j);
    } else {
      NotIn(s.running, id);
      NotIn(s.waiting, id);
      es := [];
      assert s.done + [] == s.done;
      NotLive(s, id);
      RemovedNone(Live(s), {id});
    }
  }

  lemma InvSafe(cfg: Config, s: Sys)
    requires ConfigOk(cfg) && Inv(cfg, s)
    ensures Safe(cfg, s)
  {}

  lemma NotLive(s: Sys, id: nat)
    requires (forall i :: 0 <= i < |s.running| ==> s.running[i].id != id) && forall i :: 0 <= i < |s.waiting| ==> s.waiting[i].id != id
    ensures forall c :: c in Live(s) ==> c.id !in {id}
  {}

  function Set(ids: seq<nat>): set<nat> {
    set i | 0 <= i < |ids| :: ids[i]
  }

  lemma SetFirst(ids: seq<nat>)
    requires ids != []
    ensures Set(ids) == {ids[0]} + Set(ids[1..])
  {
    assert forall i :: 0 < i < |ids| ==> ids[i] == ids[1..][i - 1];
  }

  lemma ClearNext(running: seq<Card>, waiting: seq<Card>, a: set<nat>, es: seq<Ended>, b: set<nat>, fs: seq<Ended>)
    requires Removed(running + waiting, a, es) && Removed(Outside(running, a) + Outside(waiting, a), b, fs)
    ensures Outside(Outside(running, a), b) == Outside(running, a + b) && Outside(Outside(waiting, a), b) == Outside(waiting, a + b)
    ensures Removed(running + waiting, a + b, es + fs)
  {
    hide Removed, Outside;
    OutsideBoth(running, a, b);
    OutsideBoth(waiting, a, b);
    OutsideConcat(running, waiting, a);
    RemovedJoin(running + waiting, a, es, b, fs);
  }

  /** Clearing takes out exactly the requests named. */
  lemma {:induction false} ClearLists(cfg: Config, s: Sys, ids: seq<nat>) returns (es: seq<Ended>)
    requires ConfigOk(cfg) && Inv(cfg, s) && s.pc.Idle?
    ensures var u := ReleaseAll(cfg, s, ids);
      && Cards(u.running) == Outside(Cards(s.running), Set(ids)) && Cards(u.waiting) == Outside(Cards(s.waiting), Set(ids))
      && u.done == s.done + es && Removed(Live(s), Set(ids), es) && u.lost == s.lost
    decreases ids
  {
    hide Inv, Release, Removed, Outside, Cards, Set;
    if ids == [] {
      es := [];
      ClearNothing(s, ids);
    } else {
      var fs := ReleaseLists(cfg, s, ids[0]);
      var gs := ClearLists(cfg, Release(cfg, s, ids[0]), ids[1..]);
      SetFirst(ids);
      ClearNext(Cards(s.running), Cards(s.waiting), {ids[0]}, fs, Set(ids[1..]), gs);
      es := fs + gs;
      assert (s.done + fs) + gs == s.done + es;
    }
  }

  lemma ClearNothing(s: Sys, ids: seq<nat>)
    requires ids == []
    ensures Cards(s.running) == Outside(Cards(s.running), Set(ids)) && Cards(s.waiting) == Outside(Cards(s.waiting), Set(ids))
    ensures s.done == s.done + [] && Removed(Live(s), Set(ids), [])
  {
    OutsideNone(Cards(s.running), Set(ids));
    OutsideNone(Cards(s.waiting), Set(ids));
    RemovedNone(Live(s), Set(ids));
  }

  // ---------------------------------------------------------------- admission

  lemma InstalledCard(cfg: Config, r: Req, blocks: seq<nat>, n: int)
    requires ConfigOk(cfg)
    ensures CardOf(Installed(cfg, r, blocks, n)) == CardOf(r)
  {}

  /** One attempt moves at most the oldest waiting request, to the end of the running ones. */
  lemma AttemptLists(cfg: Config, s: Sys, budget: int)
    requires ConfigOk(cfg) && TreeOk(s.tree, Handles(s.running)) && s.pc.Prefilling?
    requires s.waiting != [] && s.waiting[0].Seq() != []
    ensures var a := AdmitOne(cfg, s, budget);
      && (a.Refused? ==> a.sys.running == s.running && a.sys.waiting == s.waiting && a.sys.pc == s.pc)
      && (!a.Refused? ==>
            && a.sys.waiting == s.waiting[1..] && |a.sys.running| == |s.running| + 1 && s.running <= a.sys.running
            && CardOf(a.sys.running[|s.running|]) == CardOf(s.waiting[0]))
      && (a.Admitted? ==> a.sys.pc == Prefilling(s.pc.k + 1))
  {
    hide TreeOk, Shape, LruOk, Evict, Free, Ref, Find, Walk, Matched, Pinned, Chunks, CeilDiv, Pin, Unpin, Without;
    TreeParts(s.tree, Handles(s.running));
    InstalledCard(cfg, s.waiting[0], Matched(s.tree, LookupKey(cfg, s.waiting[0])), Find(s.tree, LookupKey(cfg, s.waiting[0])).0);
  }

  /** `j` requests have moved from the front of the queue to the end of the running list. */
  ghost predicate Moved(s: Sys, u: Sys, j: nat) {
    && j <= |s.waiting| && |u.running| == |s.running| + j && s.running <= u.running
    && Cards(u.running[|s.running|..]) == Cards(s.waiting[..j]) && u.waiting == s.waiting[j..]
  }

  lemma MovedNone(s: Sys, u: Sys)
    requires u.running == s.running && u.waiting == s.waiting
    ensures Moved(s, u, 0)
  {}

  lemma MovedNext(s: Sys, v: Sys, u: Sys, j: nat)
    requires s.waiting != [] && v.waiting == s.waiting[1..] && |v.running| == |s.running| + 1 && s.running <= v.running
    requires CardOf(v.running[|s.running|]) == CardOf(s.waiting[0]) && Moved(v, u, j)
    ensures Moved(s, u, j + 1)
  {
    var n := |s.running|;
    assert u.running[n] == v.running[n];
    var a, b := Cards(u.running[n..]), Cards(s.waiting[..j + 1]);
    forall i | 0 <= i < j + 1 ensures a[i] == b[i] {
      if i > 0 { assert a[i] == Cards(u.running[n + 1..])[i - 1] == Cards(v.waiting[..j])[i - 1]; }
    }
  }

  lemma CutAll(a: seq<Card>, m: seq<Card>, w: seq<Card>)
    ensures (a + m) + w == a + (m + w)
  {}

  /** All that live do so still, in the same order. */
  lemma MovedLive(s: Sys, u: Sys, j: nat)
    requires Moved(s, u, j)
    ensures Live(u) == Live(s)
  {
    assert u.running == s.running + u.running[|s.running|..];
    assert s.waiting == s.waiting[..j] + s.waiting[j..];
    hide Cards;
    CardsConcat(s.running, u.running[|s.running|..]);
    CardsConcat(s.waiting[..j], s.waiting[j..]);
    CutAll(Cards(s.running), Cards(s.waiting[..j]), Cards(s.waiting[j..]));
  }

  lemma {:induction false} AdmitLists(cfg: Config, s: Sys, budget: int) returns (j: nat)
    requires ConfigOk(cfg) && Budgeted(cfg, s, budget)
    ensures var r := AdmitLoop(cfg, s, budget);
      && Moved(s, r.sys, j) && r.sys.done == s.done && r.sys.aborted == s.aborted
      && (!r.broken ==> r.sys.pc == Prefilling(s.pc.k + j) && r.sys.lost == s.lost)
    decreases |s.waiting|
  {
    hide Budgeted, Inv, TreeOk, Core, Shape, AdmitOne, Parked, Handles, Need, Safe, Held, Moved;
    BudgetedCore(cfg, s, budget);
    j := 0;
    if s.waiting == [] {
      MovedNone(s, s);
    } else {
      AttemptShape(cfg, s, budget);
      AttemptKeeps(cfg, s, budget);
      AttemptLists(cfg, s, budget);
      var a := AdmitOne(cfg, s, budget);
      if a.Refused? {
        MovedNone(s, a.sys);
      } else if a.Overflow? {
        MovedNone(a.sys, a.sys);
        MovedNext(s, a.sys, a.sys, 0);
        j := 1;
      } else {
        var i := AdmitLists(cfg, a.sys, a.budget);
        MovedNext(s, a.sys, AdmitLoop(cfg, s, budget).sys, i);
        j := i + 1;
      }
    }
  }
}
