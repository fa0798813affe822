/**
 What the tree knows after a request finishes: every whole block of its prompt and its generated
 tokens, the missing ones from the request's own block table, and nothing else is new.
 */
module ServingRecord {
  import opened Basics
  import opened Tokens
  import opened PoolSpec
  import opened CacheSpec
  import opened RadixSpec
  import opened RadixUpdate
  import opened RadixInsertEvict
  import opened ServingState
  import opened ServingCore
  import opened Serving
  import opened ServingAdmit
  import opened ServingForward
  import opened ServingRun
  import opened ServingTheorems
  import opened ServingSolo
  import opened ServingSound
  import opened ServingCards
  import opened ServingKept
  import opened ServingSteps
  import opened ServingPasses

  /** The whole blocks of all tokens of `c`, or of all but the last where only computed tokens are recorded. */
  function Whole(cfg: Config, c: Card): seq<Chunk>
    requires ConfigOk(cfg)
  {
    var all := c.prompt + c.gen;
    Chunks(if cfg.cutAtCursor && all != [] then all[..|all| - 1] else all, cfg.bs)
  }

  /** Some block is recorded for the prefix `x`. */
  ghost predicate Recorded(t: Tree, x: seq<Chunk>) {
    exists b :: Entry(t, x, b)
  }

  /** `u` is `t` with the prefixes of `x` that were missing, each with its block of `table`. */
  ghost predicate Extended(t: Tree, u: Tree, x: seq<Chunk>, table: seq<nat>) {
    && |x| <= |table|
    && forall y, b :: Entry(u, y, b) <==> Entry(t, y, b) || (0 < |y| <= |x| && y <= x && !Recorded(t, y) && b == table[|y| - 1])
  }

  /** A nonempty prefix of `x` is recorded exactly if it is no longer than the known part. */
  lemma KnownIs(t: Tree, x: seq<Chunk>, y: seq<Chunk>)
    requires Shape(t) && 0 < |y| && y <= x
    ensures Recorded(t, y) <==> |y| <= Known(t, x)
  {
    MatchLongest(t, x);
    hide Entry, Find, Matched, Shape;
    assert y == x[..|y|];
    if |y| <= Known(t, x) {
      var r := Matched(t, x);
      assert Entry(t, x[..|y| - 1 + 1], r[|y| - 1]);
    } else {
      assert !Cached(t, x[..|y|]);
      NotCached(t, y);
    }
  }

  lemma NotCached(t: Tree, y: seq<Chunk>)
    requires !Cached(t, y)
    ensures !Recorded(t, y)
  {}

  lemma InsertExtends(t: Tree, x: seq<Chunk>, bt: seq<nat>)
    requires Shape(t) && |x| <= |bt|
    ensures Extended(t, Insert(t, x, bt), x, bt)
  {
    hide Entry, Insert, Known, Shape, Recorded;
    forall y, b
      ensures Entry(Insert(t, x, bt), y, b) <==> Entry(t, y, b) || (0 < |y| <= |x| && y <= x && !Recorded(t, y) && b == bt[|y| - 1])
    {
      InsertEntry(t, x, bt, y, b);
      if 0 < |y| && y <= x { KnownIs(t, x, y); }
    }
  }

  lemma ExtendedSame(t: Tree, u: Tree, v: Tree, x: seq<Chunk>, table: seq<nat>)
    requires Extended(t, u, x, table) && SameMap(u, v)
    ensures Extended(t, v, x, table)
  {
    hide Entry, SameMap, Recorded;
    SameMapHeld(u, v);
  }

  /** All of `x` is recorded afterwards. */
  lemma ExtendedKnows(t: Tree, u: Tree, x: seq<Chunk>, table: seq<nat>, k: nat)
    requires Extended(t, u, x, table) && 0 < k <= |x|
    ensures Recorded(u, x[..k])
  {
    hide Entry;
    var y := x[..k];
    if Recorded(t, y) {
      var b :| Entry(t, y, b);
      assert Entry(u, y, b);
    } else {
      assert Entry(u, y, table[k - 1]);
    }
  }

  lemma WholeIs(cfg: Config, r: Req)
    requires ConfigOk(cfg) && Ready(cfg, r)
    ensures RecordKey(cfg, r) == Whole(cfg, CardOf(r))
  {
    hide Chunks;
  }

  /**
   A request that finishes without leaving a part-block leaf: each whole-block prefix of its tokens that was
   missing is now recorded with the request's block at that place, and nothing else has changed in what is
   recorded. Without prefix sharing nothing is recorded at all.
   */
  lemma FinishRecords(cfg: Config, s: Sys, i: nat)
    requires ConfigOk(cfg) && Safe(cfg, s) && i < |s.running| && Ready(cfg, s.running[i]) && !s.fault && !FinishAt(cfg, s, i).fault
    ensures var u, r := FinishAt(cfg, s, i), s.running[i];
      if cfg.useRadix then Extended(s.tree, u.tree, Whole(cfg, CardOf(r)), r.kv.table)
      else forall y, b :: !Entry(u.tree, y, b)
  {
    hide Safe, Core, Insert, Ref, Ready, Free, UnpinOf, Extended, SameMap, Known, Shape, Entry, RecordKey, Whole;
    SafeShape(cfg, s, i);
    var r := s.running[i];
    if !cfg.useRadix {
      SafeUnshared(cfg, s);
      FinishDropped(cfg, s, i);
      EmptyHoldsNothing();
    } else {
      FinishDefined(cfg, s, i);
      FinishTree(cfg, s, i);
      WholeIs(cfg, r);
      InsertExtends(s.tree, RecordKey(cfg, r), r.kv.table);
      var t := Insert(s.tree, RecordKey(cfg, r), r.kv.table);
      UnpinOfSame(t, r);
      ExtendedSame(s.tree, t, UnpinOf(t, r), RecordKey(cfg, r), r.kv.table);
    }
  }

  lemma SafeUnshared(cfg: Config, s: Sys)
    requires ConfigOk(cfg) && Safe(cfg, s) && !cfg.useRadix
    ensures s.tree == EMPTY && forall i {:trigger s.running[i]} :: 0 <= i < |s.running| ==> s.running[i].pin.None?
  {}

  lemma FinishDropped(cfg: Config, s: Sys, i: nat)
    requires ConfigOk(cfg) && Safe(cfg, s) && i < |s.running| && Ready(cfg, s.running[i]) && !cfg.useRadix && s.running[i].pin.None?
    ensures FinishAt(cfg, s, i).tree == s.tree
  {
    hide Safe, Ready, Free;
  }

  lemma FinishTree(cfg: Config, s: Sys, i: nat)
    requires ConfigOk(cfg) && Safe(cfg, s) && i < |s.running| && Ready(cfg, s.running[i]) && cfg.useRadix
    requires !s.fault && !FinishAt(cfg, s, i).fault
    ensures var r := s.running[i];
      && Shape(s.tree) && |RecordKey(cfg, r)| <= |r.kv.table|
      && (r.pin.Some? ==> r.pin.value in Insert(s.tree, RecordKey(cfg, r), r.kv.table).nodes)
      && FinishAt(cfg, s, i).tree == UnpinOf(Insert(s.tree, RecordKey(cfg, r), r.kv.table), r)
  {
    hide Safe, Core, Insert, Ref, Ready, Free, UnpinOf, Known, Shape;
    SafeShape(cfg, s, i);
    FinishDefined(cfg, s, i);
  }

  lemma UnpinOfSame(t: Tree, r: Req)
    requires r.pin.Some? ==> r.pin.value in t.nodes
    ensures SameMap(t, UnpinOf(t, r))
  {
    if r.pin.Some? { UnpinSame(t, r.pin.value); }
  }

  // ---------------------------------------------------------------- a whole pass

  /** Going from `t` to `u` all whole blocks of the requests in `es` have been recorded, and only those. */
  ghost predicate RecordedAll(cfg: Config, t: Tree, u: Tree, es: seq<Ended>)
    requires ConfigOk(cfg)
  {
    && (forall y, b :: Entry(t, y, b) ==> Entry(u, y, b))
    && (forall k, y {:trigger es[k], Recorded(u, y)} :: 0 <= k < |es| && 0 < |y| && y <= Whole(cfg, CardOf(es[k].req)) ==> Recorded(u, y))
    && (forall y, b :: Entry(u, y, b) && !Entry(t, y, b) ==>
          !Recorded(t, y) && exists k :: 0 <= k < |es| && y <= Whole(cfg, CardOf(es[k].req)))
  }

  lemma RecordedNone(cfg: Config, t: Tree)
    requires ConfigOk(cfg)
    ensures RecordedAll(cfg, t, t, [])
  {}

  lemma NotBefore(t: Tree, u: Tree, y: seq<Chunk>)
    requires !Recorded(u, y) && forall c :: Entry(t, y, c) ==> Entry(u, y, c)
    ensures !Recorded(t, y)
  {
    hide Entry;
  }

  lemma RecordedOne(cfg: Config, t: Tree, u: Tree, v: Tree, e: Ended, table: seq<nat>, es: seq<Ended>)
    requires ConfigOk(cfg) && Extended(t, u, Whole(cfg, CardOf(e.req)), table) && RecordedAll(cfg, u, v, es)
    ensures RecordedAll(cfg, t, v, [e] + es)
  {
    hide Entry, Whole;
    var all := [e] + es;
    var x := Whole(cfg, CardOf(e.req));
    forall k, y {:trigger all[k], Recorded(v, y)} | 0 <= k < |all| && 0 < |y| && y <= Whole(cfg, CardOf(all[k].req)) ensures Recorded(v, y) {
      if k == 0 {
        assert y == x[..|y|];
        ExtendedKnows(t, u, x, table, |y|);
        var b :| Entry(u, y, b);
        assert Entry(v, y, b);
      } else {
        assert all[k] == es[k - 1];
      }
    }
    forall y, b | Entry(v, y, b) && !Entry(t, y, b)
      ensures !Recorded(t, y) && exists k :: 0 <= k < |all| && y <= Whole(cfg, CardOf(all[k].req))
    {
      if Entry(u, y, b) {
        assert all[0] == e;
      } else {
        var k :| 0 <= k < |es| && y <= Whole(cfg, CardOf(es[k].req));
        assert all[k + 1] == es[k];
        NotBefore(t, u, y);
      }
    }
  }

  lemma EndingsSkip(rs: seq<Req>, i: nat)
    requires i < |rs| && rs[i].phase != Finished
    ensures Endings(rs[i..]) == Endings(rs[i + 1..])
  {
    assert rs[i..][1..] == rs[i + 1..];
  }

  lemma {:induction false} FinishRecordsAll(cfg: Config, s: Sys, i: nat)
    requires ConfigOk(cfg) && cfg.useRadix && Finishing(cfg, s, i) && !s.fault && !FinishFrom(cfg, s, i).fault
    ensures i <= |s.running| && RecordedAll(cfg, s.tree, FinishFrom(cfg, s, i).tree, Endings(s.running[i..]))
    decreases |s.running| - i
  {
    hide Finishing, Inv, FinishAt, Faults, Ready, RecordedAll, Safe, Extended, Whole;
    FinishBounds(cfg, s, i);
    if i < |s.running| {
      var r := s.running[i];
      FinishStep(cfg, s, i);
      assert s.running[i..][1..] == s.running[i + 1..];
      if r.phase != Finished {
        FinishRecordsAll(cfg, s, i + 1);
        EndingsSkip(s.running, i);
      } else {
        FinishingSafe(cfg, s, i);
        FinishAtLists(cfg, s, i);
        FinishRecords(cfg, s, i);
        var u := FinishAt(cfg, s, i);
        FinishRecordsAll(cfg, u, i);
        CutAt(s.running, i);
        var e := Ended(Cleared(r, Finished), true);
        assert CardOf(e.req) == CardOf(r);
        RecordedOne(cfg, s.tree, u.tree, FinishFrom(cfg, u, i).tree, e, r.kv.table, Endings(s.running[i + 1..]));
      }
    } else {
      RecordedNone(cfg, s.tree);
    }
  }

  /**
   A pass that is not doomed records every whole block of the requests that leave in it, and no other new
   block; what was recorded stays.
   */
  lemma PassRecords(cfg: Config, n: nat, acts: seq<Action>)
    requires ConfigOk(cfg) && cfg.useRadix && !Run(cfg, n, acts).pc.Idle? && !Run(cfg, n, acts + [Pass]).fault
    requires 0 <= BatchStart(Run(cfg, n, acts)) <= |Run(cfg, n, acts).running| && !Doomed(cfg, Run(cfg, n, acts))
    ensures var s, u := Run(cfg, n, acts), Run(cfg, n, acts + [Pass]);
      |s.done| <= |u.done| && RecordedAll(cfg, s.tree, u.tree, u.done[|s.done|..])
  {
    hide Run, Inv, Funded, Forward, Doomed, BatchGoes, RecordedAll;
    RunMore(cfg, n, acts, Pass);
    DoomedIff(cfg, n, acts);
    ForwardRecords(cfg, Run(cfg, n, acts));
  }

  lemma ForwardRecords(cfg: Config, s: Sys)
    requires ConfigOk(cfg) && cfg.useRadix && Inv(cfg, s) && Funded(cfg, s) && !s.pc.Idle? && !s.fault && BatchGoes(cfg, s)
    requires !Forward(cfg, s).fault
    ensures var u := Forward(cfg, s); |s.done| <= |u.done| && RecordedAll(cfg, s.tree, u.tree, u.done[|s.done|..])
  {
    hide Inv, Funded, Finishing, Safe, PrepareFrom, FinishFrom, RecordedAll, Advanced;
    BatchFresh(cfg, s);
    PrepareAll(cfg, s, BatchStart(s), BatchStart(s), |s.running|, s.pc.Decoding?);
    ForwardedFinishing(cfg, s);
    var v := Forwarded(cfg, s);
    ForwardedLists(cfg, s);
    AdvancedDone(s, v);
    PrepareSame(cfg, s, BatchStart(s), |s.running|, s.pc.Decoding?);
    FinishRecordsAll(cfg, v, 0);
    FinishLists(cfg, v, 0);
    assert v.running[0..] == v.running;
    var u := FinishFrom(cfg, v, 0);
    assert u.done[|s.done|..] == Endings(v.running);
  }

  lemma AdvancedDone(s: Sys, v: Sys)
    requires Advanced(s, v)
    ensures v.done == s.done
  {}
}
