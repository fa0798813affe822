/**
 Preemption stops in time: the requests that go on running are the most that can be kept, counted
 from the oldest, and the others wait again in arrival order with what they have generated.
 */
module ServingKept {
  import opened Basics
  import opened Tokens
  import opened PoolSpec
  import opened CacheSpec
  import opened RadixSpec
  import opened RadixUpdate
  import opened RadixInsertEvict
  import opened ServingState
  import opened ServingCore
  import opened Serving
  import opened ServingAdmit
  import opened ServingForward
  import opened ServingRun
  import opened ServingTheorems

  /** The blocks that are free once the running requests from `j` on are gone: nobody else refers to them. */
  ghost function FreeWithout(s: Sys, j: nat): nat
    requires j <= |s.running|
  {
    |set b: nat | b < |s.pool.ref| && s.pool.ref[b] == Occ(s.running[j..], b)|
  }

  lemma FreeIs(p: Pool)
    requires PoolOk(p)
    ensures |set b: nat | b < |p.ref| && p.ref[b] == 0| == |p.free|
  {
    DistinctSize(p.free);
    var free := set i | 0 <= i < |p.free| :: p.free[i];
    forall b: nat ensures b < |p.ref| && p.ref[b] == 0 <==> b in free {
      if b < |p.ref| && p.ref[b] == 0 {
        assert b in p.free;
        var i :| 0 <= i < |p.free| && p.free[i] == b;
      }
    }
    assert (set b: nat | b < |p.ref| && p.ref[b] == 0) == free;
  }

  lemma FreeWithAll(cfg: Config, s: Sys)
    requires ConfigOk(cfg) && Inv(cfg, s)
    ensures FreeWithout(s, |s.running|) == |s.pool.free|
  {
    assert s.running[|s.running|..] == [];
    FreeIs(s.pool);
    assert (set b: nat | b < |s.pool.ref| && s.pool.ref[b] == Occ([], b)) == set b: nat | b < |s.pool.ref| && s.pool.ref[b] == 0;
  }

  lemma {:induction false} OccLast(rs: seq<Req>, j: nat, b: nat)
    requires j < |rs|
    ensures Occ(rs[j..], b) == Occ(rs[..|rs| - 1][j..], b) + Count(rs[|rs| - 1].kv.table, b)
  {
    var last := rs[|rs| - 1];
    assert rs[j..] == rs[..|rs| - 1][j..] + [last];
    OccConcat(rs[..|rs| - 1][j..], [last], b);
    assert Occ([last], b) == Count(last.kv.table, b) + Occ([], b);
  }

  /** Dropping the latest request takes its references off. */
  lemma LastDropped(cfg: Config, s: Sys)
    requires ConfigOk(cfg) && Inv(cfg, s) && s.running != []
    ensures var p, q := s.pool, Free(s.pool, s.running[|s.running| - 1].kv.table).1;
      |q.ref| == |p.ref| && forall b: nat :: b < |p.ref| ==> q.ref[b] == p.ref[b] - Count(s.running[|s.running| - 1].kv.table, b)
  {
    hide TreeOk, Adopted, Exclusive, Injective, Held;
    ReleaseCovered(s.pool, s.tree, s.running, |s.running| - 1, s.lost);
    FreeKeeps(s.pool, s.running[|s.running| - 1].kv.table);
  }

  lemma SameWithout(cfg: Config, s: Sys, j: nat)
    requires ConfigOk(cfg) && Inv(cfg, s) && s.pc.Idle? && j < |s.running|
    requires s.running[|s.running| - 1].pin.Some? ==> s.running[|s.running| - 1].pin.value in s.tree.nodes
    ensures PreemptLast(s).running == s.running[..|s.running| - 1]
    ensures FreeWithout(PreemptLast(s), j) == FreeWithout(s, j)
  {
    hide Inv, UnpinOf, Free, Occ, Count;
    LastDropped(cfg, s);
    var u := PreemptLast(s);
    assert u.running == s.running[..|s.running| - 1];
    forall b: nat | b < |s.pool.ref|
      ensures u.pool.ref[b] == Occ(u.running[j..], b) <==> s.pool.ref[b] == Occ(s.running[j..], b)
    {
      OccLast(s.running, j, b);
    }
    assert (set b: nat | b < |u.pool.ref| && u.pool.ref[b] == Occ(u.running[j..], b))
      == set b: nat | b < |s.pool.ref| && s.pool.ref[b] == Occ(s.running[j..], b);
  }

  /** Requests `rs` back in the queue: nothing held, all tokens kept. */
  function Requeued(rs: seq<Req>): (w: seq<Req>)
    ensures |w| == |rs|
  {
    seq(|rs|, i requires 0 <= i < |rs| => rs[i].(kv := FRESH, pin := None, shared := 0, phase := Waiting))
  }

  /**
   `m` requests can stay, the oldest ones, each with a free block for its next token, and with any
   more of them there would be fewer free blocks than requests.
   */
  ghost predicate MostKept(s: Sys, m: nat) {
    && m <= |s.running| && m <= FreeWithout(s, m)
    && forall j {:trigger FreeWithout(s, j)} :: m < j <= |s.running| ==> FreeWithout(s, j) < j
  }

  /** Preemption keeps as many of the oldest as possible and sends the others back to the front of the queue. */
  lemma {:induction false} PreemptExact(cfg: Config, s: Sys)
    requires ConfigOk(cfg) && Inv(cfg, s) && s.pc.Idle?
    ensures var u := PreemptLoop(cfg, s); var m := |u.running|;
      && MostKept(s, m) && u.running == s.running[..m] && |u.pool.free| == FreeWithout(s, m)
      && u.waiting == Requeued(s.running[m..]) + s.waiting
      && u.done == s.done && u.lost == s.lost && u.fault == s.fault && u.aborted == s.aborted
      && (|s.running| <= |s.pool.free| ==> u == s)
    decreases |s.running|
  {
    hide Inv, PreemptLast, FreeWithout;
    var n := |s.running|;
    FreeWithAll(cfg, s);
    if |s.pool.free| >= n {
      assert s.running[n..] == [] && Requeued([]) == [];
      assert s.running[..n] == s.running && [] + s.waiting == s.waiting;
    } else {
      PreemptKeeps(cfg, s);
      LastPreempted(cfg, s);
      var v := PreemptLast(s);
      PreemptExact(cfg, v);
      var u := PreemptLoop(cfg, s);
      assert u == PreemptLoop(cfg, v);
      var m := |u.running|;
      SameWithout(cfg, s, m);
      forall j {:trigger FreeWithout(s, j)} | m < j <= n ensures FreeWithout(s, j) < j {
        if j < n {
          SameWithout(cfg, s, j);
          assert FreeWithout(v, j) < j;
        }
      }
      RequeueJoin(s.running, m, s.waiting);
      assert s.running[..n - 1][..m] == s.running[..m];
    }
  }

  lemma RequeueJoin(rs: seq<Req>, m: nat, w: seq<Req>)
    requires m < |rs|
    ensures Requeued(rs[..|rs| - 1][m..]) + (Requeued([rs[|rs| - 1]]) + w) == Requeued(rs[m..]) + w
  {
    var a, b := Requeued(rs[..|rs| - 1][m..]), Requeued([rs[|rs| - 1]]);
    assert a + b == Requeued(rs[m..]);
    assert a + (b + w) == (a + b) + w;
  }

  lemma LastPreempted(cfg: Config, s: Sys)
    requires ConfigOk(cfg) && Inv(cfg, s) && s.pc.Idle? && s.running != []
    requires s.running[|s.running| - 1].pin.Some? ==> s.running[|s.running| - 1].pin.value in s.tree.nodes
    ensures var u := PreemptLast(s);
      && u.running == s.running[..|s.running| - 1] && u.waiting == Requeued([s.running[|s.running| - 1]]) + s.waiting
      && u.done == s.done && u.lost == s.lost && u.fault == s.fault && u.aborted == s.aborted
  {
    hide Inv, UnpinOf, Free;
    var n := |s.running|;
    assert s.running[..n - 1] + s.running[n..] == s.running[..n - 1];
    assert Requeued([s.running[n - 1]]) == [Cleared(s.running[n - 1], Waiting)];
  }
}
