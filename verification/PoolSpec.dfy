/**
 The block pool as a value: a reference count per block and the free blocks in stack order
 (the head is popped next).
 */
module PoolSpec {
  datatype Pool = Pool(ref: seq<nat>, free: seq<nat>)

  ghost predicate PoolOk(p: Pool) {
    && (forall i, j :: 0 <= i < j < |p.free| ==> p.free[i] != p.free[j])
    && (forall i :: 0 <= i < |p.free| ==> p.free[i] < |p.ref| && p.ref[p.free[i]] == 0)
    && (forall b: nat :: b < |p.ref| && p.ref[b] == 0 ==> b in p.free)
  }

  /** `n` blocks, all free, block 0 on top. */
  function NewPool(n: nat): Pool {
    Pool(seq(n, _ => 0), seq(n, i => i))
  }

  lemma NewPoolOk(n: nat)
    ensures PoolOk(NewPool(n)) && |NewPool(n).ref| == |NewPool(n).free| == n
  {
    var p := NewPool(n);
    forall b: nat | b < |p.ref| && p.ref[b] == 0 ensures b in p.free {
      assert p.free[b] == b;
    }
  }

  function Count(s: seq<nat>, b: nat): nat {
    if s == [] then 0 else (if s[0] == b then 1 else 0) + Count(s[1..], b)
  }

  lemma {:induction false} CountConcat(s: seq<nat>, u: seq<nat>, b: nat)
    ensures Count(s + u, b) == Count(s, b) + Count(u, b)
  {
    if s == [] {
      assert s + u == u;
    } else {
      assert (s + u)[1..] == s[1..] + u;
      CountConcat(s[1..], u, b);
    }
  }

  lemma {:induction false} CountZero(s: seq<nat>, b: nat)
    ensures Count(s, b) == 0 <==> forall i :: 0 <= i < |s| ==> s[i] != b
  {
    if s != [] {
      CountZero(s[1..], b);
      assert forall i :: 0 < i < |s| ==> s[i] == s[1..][i - 1];
      if Count(s[1..], b) == 0 {
        assert forall i :: 0 < i < |s| ==> s[i] != b;
      } else {
        var i :| 0 <= i < |s[1..]| && s[1..][i] == b;
        assert s[i + 1] == b;
      }
    }
  }

  lemma CountTwice(s: seq<nat>, i: nat, j: nat)
    requires i < j < |s| && s[i] == s[j]
    ensures Count(s, s[i]) >= 2
  {
    assert s == s[..j] + s[j..];
    CountConcat(s[..j], s[j..], s[i]);
    CountZero(s[..j], s[i]);
    CountZero(s[j..], s[i]);
    assert s[..j][i] == s[i] && s[j..][0] == s[i];
  }

  lemma {:induction false} CountDistinct(s: seq<nat>, b: nat)
    requires forall i, j :: 0 <= i < j < |s| ==> s[i] != s[j]
    ensures Count(s, b) == if b in s then 1 else 0
  {
    if s != [] {
      CountDistinct(s[1..], b);
      assert b in s <==> b == s[0] || b in s[1..];
      assert s[0] !in s[1..];
    }
  }

  // ---------------------------------------------------------------- alloc

  /** Pop `k` blocks; each gets reference count one. */
  function Alloc(p: Pool, k: nat): Pool
    requires k <= |p.free|
  {
    Pool(seq(|p.ref|, b requires 0 <= b < |p.ref| => if b in p.free[..k] then 1 else p.ref[b]), p.free[k..])
  }

  lemma AllocKeeps(p: Pool, k: nat)
    requires PoolOk(p) && k <= |p.free|
    ensures PoolOk(Alloc(p, k)) && |Alloc(p, k).free| == |p.free| - k
    ensures forall b: nat :: b < |p.ref| ==> Alloc(p, k).ref[b] == p.ref[b] + Count(p.free[..k], b)
    ensures forall i :: 0 <= i < k ==> p.free[i] < |p.ref| && p.ref[p.free[i]] == 0
  {
    var q := Alloc(p, k);
    forall b: nat | b < |p.ref| ensures q.ref[b] == p.ref[b] + Count(p.free[..k], b) {
      CountDistinct(p.free[..k], b);
      if b in p.free[..k] {
        var i :| 0 <= i < k && p.free[i] == b;
      }
    }
    forall b: nat | b < |q.ref| && q.ref[b] == 0 ensures b in q.free {
      assert b in p.free && b !in p.free[..k];
      var i :| 0 <= i < |p.free| && p.free[i] == b;
      assert q.free[i - k] == b;
    }
    forall i | 0 <= i < |q.free| ensures q.free[i] < |q.ref| && q.ref[q.free[i]] == 0 {
      assert q.free[i] == p.free[i + k];
      assert q.free[i] !in p.free[..k];
    }
  }

  // ---------------------------------------------------------------- free and ref

  predicate Allocated(p: Pool, b: nat) {
    b < |p.ref| && p.ref[b] > 0
  }

  /** Drop one reference; the block returns to the top of the stack when none is left. */
  function Decr(p: Pool, b: nat): Pool
    requires Allocated(p, b)
  {
    Pool(p.ref[b := p.ref[b] - 1], if p.ref[b] == 1 then [b] + p.free else p.free)
  }

  /** `free`: stops at the first id that is out of range or not allocated. */
  function Free(p: Pool, ids: seq<nat>): (r: (bool, Pool))
    ensures |r.1.ref| == |p.ref|
    decreases ids
  {
    if ids == [] then (true, p)
    else if !Allocated(p, ids[0]) then (false, p)
    else Free(Decr(p, ids[0]), ids[1..])
  }

  function Ref(p: Pool, ids: seq<nat>): (r: (bool, Pool))
    ensures |r.1.ref| == |p.ref|
    decreases ids
  {
    if ids == [] then (true, p)
    else if !Allocated(p, ids[0]) then (false, p)
    else Ref(p.(ref := p.ref[ids[0] := p.ref[ids[0]] + 1]), ids[1..])
  }

  lemma DecrKeeps(p: Pool, b: nat)
    requires PoolOk(p) && Allocated(p, b)
    ensures PoolOk(Decr(p, b))
  {
    var q := Decr(p, b);
    assert b !in p.free;
    forall c: nat | c < |q.ref| && q.ref[c] == 0 ensures c in q.free {
      if c != b { assert c in p.free; }
    }
    if p.ref[b] == 1 {
      assert forall i :: 0 < i < |q.free| ==> q.free[i] == p.free[i - 1];
    }
  }

  /** Every id is in range and appears no more often than it is referenced. */
  ghost predicate Covered(p: Pool, ids: seq<nat>) {
    && (forall i :: 0 <= i < |ids| ==> ids[i] < |p.ref|)
    && (forall b: nat :: b < |p.ref| ==> Count(ids, b) <= p.ref[b])
  }

  /** `free` succeeds exactly when no id is freed more often than it is referenced. */
  lemma {:induction false} FreeOkIff(p: Pool, ids: seq<nat>)
    ensures Free(p, ids).0 <==> Covered(p, ids)
    decreases ids
  {
    if ids != [] {
      var b := ids[0];
      if Allocated(p, b) {
        FreeOkIff(Decr(p, b), ids[1..]);
        CoveredStep(p, ids);
      } else {
        assert Count(ids, b) >= 1;
      }
    }
  }

  lemma CoveredStep(p: Pool, ids: seq<nat>)
    requires ids != [] && Allocated(p, ids[0])
    ensures Covered(p, ids) <==> Covered(Decr(p, ids[0]), ids[1..])
  {
    var q := Decr(p, ids[0]);
    assert forall b: nat :: b < |p.ref| ==> Count(ids, b) - p.ref[b] == Count(ids[1..], b) - q.ref[b];
    assert forall i :: 0 < i < |ids| ==> ids[i] == ids[1..][i - 1];
    if Covered(q, ids[1..]) {
      forall i | 0 <= i < |ids| ensures ids[i] < |p.ref| {
        if i > 0 { assert ids[1..][i - 1] < |q.ref|; }
      }
    }
  }

  /** A successful `free` lowers each count by the number of occurrences. */
  lemma {:induction false} FreeKeeps(p: Pool, ids: seq<nat>)
    requires PoolOk(p) && Covered(p, ids)
    ensures Free(p, ids).0 && PoolOk(Free(p, ids).1)
    ensures forall b: nat :: b < |p.ref| ==> Free(p, ids).1.ref[b] == p.ref[b] - Count(ids, b)
    ensures |p.free| <= |Free(p, ids).1.free|
    decreases ids
  {
    if ids != [] {
      assert Count(ids, ids[0]) >= 1;
      DecrKeeps(p, ids[0]);
      CoveredStep(p, ids);
      FreeKeeps(Decr(p, ids[0]), ids[1..]);
    }
  }

  /** How many of `ids` have a single reference. */
  function Singles(p: Pool, ids: seq<nat>): nat {
    if ids == [] then 0 else (if ids[0] < |p.ref| && p.ref[ids[0]] == 1 then 1 else 0) + Singles(p, ids[1..])
  }

  lemma {:induction false} SinglesSame(p: Pool, q: Pool, ids: seq<nat>)
    requires |p.ref| == |q.ref| && forall i :: 0 <= i < |ids| ==> ids[i] < |p.ref| && p.ref[ids[i]] == q.ref[ids[i]]
    ensures Singles(p, ids) == Singles(q, ids)
  {
    if ids != [] { SinglesSame(p, q, ids[1..]); }
  }

  /** Distinct allocated blocks: exactly those with a single reference return to the pool. */
  lemma {:induction false} FreeGrows(p: Pool, ids: seq<nat>)
    requires forall i :: 0 <= i < |ids| ==> Allocated(p, ids[i])
    requires forall i, j :: 0 <= i < j < |ids| ==> ids[i] != ids[j]
    ensures Free(p, ids).0 && |Free(p, ids).1.free| == |p.free| + Singles(p, ids)
    decreases ids
  {
    if ids != [] {
      var q := Decr(p, ids[0]);
      forall i | 0 <= i < |ids[1..]| ensures Allocated(q, ids[1..][i]) && p.ref[ids[1..][i]] == q.ref[ids[1..][i]] {
        assert ids[1..][i] == ids[i + 1];
        assert ids[0] != ids[i + 1];
      }
      SinglesSame(p, q, ids[1..]);
      FreeGrows(q, ids[1..]);
    }
  }

  /** `ref` succeeds when every id is allocated, and raises each count by the occurrences. */
  lemma {:induction false} RefKeeps(p: Pool, ids: seq<nat>)
    requires PoolOk(p) && forall i :: 0 <= i < |ids| ==> Allocated(p, ids[i])
    ensures Ref(p, ids).0 && PoolOk(Ref(p, ids).1) && Ref(p, ids).1.free == p.free
    ensures forall b: nat :: b < |p.ref| ==> Ref(p, ids).1.ref[b] == p.ref[b] + Count(ids, b)
    decreases ids
  {
    if ids != [] {
      var q := p.(ref := p.ref[ids[0] := p.ref[ids[0]] + 1]);
      assert PoolOk(q) by {
        forall b: nat | b < |q.ref| && q.ref[b] == 0 ensures b in q.free { assert p.ref[b] == 0; }
      }
      RefKeeps(q, ids[1..]);
    }
  }

  /** The free list is a stack: the block given back last is the next one taken, and taking it undoes giving it back. */
  lemma TakenBack(p: Pool, b: nat)
    requires PoolOk(p) && b < |p.ref| && p.ref[b] == 1
    ensures Free(p, [b]).0 && |Free(p, [b]).1.free| == |p.free| + 1
    ensures Alloc(Free(p, [b]).1, 1) == p
  {
    var q := Decr(p, b);
    assert [b][1..] == [];
    assert Free(p, [b]) == Free(q, [b][1..]) == (true, q);
    assert q.free[..1] == [b] && q.free[1..] == p.free;
    assert Alloc(q, 1).ref == p.ref;
  }
}
