/**
 The list of evictable nodes: doubly linked between two sentinels, oldest at the front. Nodes
 are named by identity; the links and the membership flag belong to the nodes in the source.
 */
module LruList {
  import opened Basics
  import opened RadixSpec

  const HEAD: int := -1
  const TAIL: int := -2
  /** The null link. */
  const NIL: int := -3

  // ---------------------------------------------------------------- links as values

  /** Every member but the last points forward at its successor. */
  ghost predicate Forward(next: map<int, int>, c: seq<int>) {
    forall i {:trigger c[i]} :: 0 <= i < |c| - 1 ==> c[i] in next && next[c[i]] == c[i + 1]
  }

  /** Every member but the first points back at its predecessor. */
  ghost predicate Backward(prev: map<int, int>, c: seq<int>) {
    forall i {:trigger c[i]} :: 0 < i < |c| ==> c[i] in prev && prev[c[i]] == c[i - 1]
  }

  lemma UnlinkForward(next: map<int, int>, c: seq<int>, k: nat)
    requires NoDup(c) && Forward(next, c) && 0 < k < |c| - 1
    ensures Forward(next[c[k - 1] := c[k + 1]], c[..k] + c[k + 1..])
  {
    var d := c[..k] + c[k + 1..];
    forall i {:trigger d[i]} | 0 <= i < |d| - 1
      ensures d[i] in next[c[k - 1] := c[k + 1]] && next[c[k - 1] := c[k + 1]][d[i]] == d[i + 1]
    {
      var j := if i < k then i else i + 1;
      assert d[i] == c[j];
    }
  }

  lemma UnlinkBackward(prev: map<int, int>, c: seq<int>, k: nat)
    requires NoDup(c) && Backward(prev, c) && 0 < k < |c| - 1
    ensures Backward(prev[c[k + 1] := c[k - 1]], c[..k] + c[k + 1..])
  {
    var d := c[..k] + c[k + 1..];
    forall i {:trigger d[i]} | 0 < i < |d|
      ensures d[i] in prev[c[k + 1] := c[k - 1]] && prev[c[k + 1] := c[k - 1]][d[i]] == d[i - 1]
    {
      var j := if i < k then i else i + 1;
      assert d[i] == c[j];
    }
  }

  lemma LinkForward(next: map<int, int>, c: seq<int>, x: int)
    requires NoDup(c) && Forward(next, c) && |c| >= 2 && x !in c
    ensures Forward(next[c[|c| - 2] := x][x := c[|c| - 1]], c[..|c| - 1] + [x, c[|c| - 1]])
  {
    var t := c[|c| - 1];
    var d, n' := c[..|c| - 1] + [x, t], next[c[|c| - 2] := x][x := t];
    forall i {:trigger d[i]} | 0 <= i < |d| - 1 ensures d[i] in n' && n'[d[i]] == d[i + 1] {
      if i < |c| - 1 { assert d[i] == c[i]; }
    }
  }

  lemma LinkBackward(prev: map<int, int>, c: seq<int>, x: int)
    requires NoDup(c) && Backward(prev, c) && |c| >= 2 && x !in c
    ensures Backward(prev[x := c[|c| - 2]][c[|c| - 1] := x], c[..|c| - 1] + [x, c[|c| - 1]])
  {
    var t := c[|c| - 1];
    var d, p' := c[..|c| - 1] + [x, t], prev[x := c[|c| - 2]][t := x];
    forall i {:trigger d[i]} | 0 < i < |d| ensures d[i] in p' && p'[d[i]] == d[i - 1] {
      if i < |c| - 1 { assert d[i] == c[i] && d[i - 1] == c[i - 1]; }
    }
  }

  /** The chain through the sentinels. */
  function Chain(s: seq<int>): seq<int> {
    [HEAD] + s + [TAIL]
  }

  /** The links and sentinels spell out exactly `s`, oldest first, with no repetition. */
  ghost predicate Spells(next: map<int, int>, prev: map<int, int>, s: seq<int>) {
    && NoDup(s)
    && (forall i :: 0 <= i < |s| ==> s[i] >= 0)
    && Forward(next, Chain(s)) && Backward(prev, Chain(s))
  }

  lemma ChainDistinct(s: seq<int>)
    requires NoDup(s) && forall i :: 0 <= i < |s| ==> s[i] >= 0
    ensures NoDup(Chain(s))
  {
    var c := Chain(s);
    assert forall i :: 0 < i < |c| - 1 ==> c[i] == s[i - 1];
  }

  lemma {:induction false} WithoutAt(s: seq<int>, k: nat)
    requires NoDup(s) && k < |s|
    ensures Without(s, s[k]) == s[..k] + s[k + 1..]
  {
    if k > 0 {
      WithoutAt(s[1..], k - 1);
      assert s[0] != s[k];
      assert s[..k] + s[k + 1..] == [s[0]] + (s[1..][..k - 1] + s[1..][k..]);
    }
  }

  /** Links of something outside the chain do not matter. */
  lemma SpellsOutside(next: map<int, int>, prev: map<int, int>, s: seq<int>, x: int, y: int, z: int)
    requires Spells(next, prev, s) && x !in s && x >= 0
    ensures Spells(next[x := y], prev[x := z], s)
  {
    var c := Chain(s);
    assert x !in c;
  }

  /** The neighbours of a member. */
  lemma Neighbours(next: map<int, int>, prev: map<int, int>, s: seq<int>, k: nat)
    requires Spells(next, prev, s) && k < |s|
    ensures s[k] in next && s[k] in prev && next[s[k]] == Chain(s)[k + 2] && prev[s[k]] == Chain(s)[k]
    ensures s[k] != Chain(s)[k + 2] && s[k] != Chain(s)[k] && s[k] >= 0
  {
    var c := Chain(s);
    ChainDistinct(s);
    assert c[k + 1] == s[k];
  }

  lemma WithoutStays(s: seq<int>, k: nat)
    requires NoDup(s) && k < |s| && forall i :: 0 <= i < |s| ==> s[i] >= 0
    ensures NoDup(s[..k] + s[k + 1..])
    ensures var w := s[..k] + s[k + 1..]; forall i :: 0 <= i < |w| ==> w[i] >= 0
  {
    WithoutAt(s, k);
    WithoutProps(s, s[k]);
  }

  lemma ChainWithout(s: seq<int>, k: nat)
    requires k < |s|
    ensures Chain(s[..k] + s[k + 1..]) == Chain(s)[..k + 1] + Chain(s)[k + 2..]
  {}

  lemma UnlinkAt(next: map<int, int>, prev: map<int, int>, s: seq<int>, k: nat)
    requires Spells(next, prev, s) && k < |s|
    ensures var c := Chain(s);
      Spells(next[c[k] := c[k + 2]], prev[c[k + 2] := c[k]], s[..k] + s[k + 1..])
  {
    hide Forward, Backward, NoDup;
    ChainDistinct(s);
    UnlinkForward(next, Chain(s), k + 1);
    UnlinkBackward(prev, Chain(s), k + 1);
    WithoutStays(s, k);
    ChainWithout(s, k);
  }

  /** The links without a member. */
  lemma SpellsUnlink(next: map<int, int>, prev: map<int, int>, s: seq<int>, node: int)
    requires Spells(next, prev, s) && node in s
    ensures node in next && node in prev && node >= 0
    ensures Spells(next[prev[node] := next[node]], prev[next[node] := prev[node]], Without(s, node))
    ensures node !in Without(s, node) && |Without(s, node)| == |s| - 1
    ensures node != prev[node] && node != next[node]
    ensures (set n | n in Without(s, node)) == (set n | n in s) - {node}
    ensures (set n | n in Without(s, node) + [node]) == (set n | n in s)
  {
    var k :| 0 <= k < |s| && s[k] == node;
    Neighbours(next, prev, s, k);
    UnlinkAt(next, prev, s, k);
    hide Chain, Forward, Backward, NoDup;
    WithoutAt(s, k);
    WithoutProps(s, node);
  }

  /** The last member, and the links with one more after it. */
  lemma SpellsLink(next: map<int, int>, prev: map<int, int>, s: seq<int>, node: int)
    requires Spells(next, prev, s) && node !in s && node >= 0
    ensures TAIL in prev && prev[TAIL] != node
    ensures Spells(next[prev[TAIL] := node][node := TAIL], prev[node := prev[TAIL]][TAIL := node], s + [node])
  {
    var c := Chain(s);
    ChainDistinct(s);
    assert node !in c by { assert forall i :: 0 < i < |c| - 1 ==> c[i] == s[i - 1]; }
    assert c[|c| - 1] == TAIL;
    LinkForward(next, c, node);
    LinkBackward(prev, c, node);
    assert Chain(s + [node]) == c[..|c| - 1] + [node, TAIL];
  }

  lemma SpellsFront(next: map<int, int>, prev: map<int, int>, s: seq<int>)
    requires Spells(next, prev, s)
    ensures HEAD in next && (next[HEAD] == TAIL <==> s == [])
    ensures s != [] ==> next[HEAD] == s[0] && s[0] in prev && prev[s[0]] == HEAD && Without(s, s[0]) == s[1..]
  {
    var c := Chain(s);
    assert c[0] == HEAD;
    assert s != [] ==> c[1] == s[0];
    if s != [] { WithoutAt(s, 0); }
  }

  // ---------------------------------------------------------------- the list

  class LRUList {
    var lruNext: map<int, int>
    var lruPrev: map<int, int>
    var inLru: set<int>
    var size: int
    /** The members, oldest first. */
    ghost var list: seq<int>

    ghost predicate Valid()
      reads this
    {
      && Spells(lruNext, lruPrev, list)
      && inLru == (set n | n in list)
      && size == |list|
    }

    constructor ()
      ensures Valid() && list == []
    {
      lruNext := map[HEAD := TAIL];
      lruPrev := map[TAIL := HEAD];
      inLru := {};
      size := 0;
      list := [];
    }

    method Empty() returns (b: bool)
      requires Valid()
      ensures b == (list == [])
    {
      SpellsFront(lruNext, lruPrev, list);
      b := lruNext[HEAD] == TAIL;
    }

    /** Append at the recent end; refused when already listed. */
    method PushBack(node: int) returns (ok: bool)
      requires Valid() && node >= 0
      modifies this
      ensures Valid() && ok == (node !in old(list))
      ensures list == if ok then old(list) + [node] else old(list)
    {
      hide Spells;
      if node in inLru {
        return false;
      }
      SpellsLink(lruNext, lruPrev, list, node);
      inLru := inLru + {node};
      var last := lruPrev[TAIL];
      lruNext := lruNext[last := node];
      lruPrev := lruPrev[node := last];
      lruNext := lruNext[node := TAIL];
      lruPrev := lruPrev[TAIL := node];
      size := size + 1;
      list := list + [node];
      ok := true;
    }

    /** Detach the oldest member; refused when there is none. */
    method PopFront() returns (ok: bool, node: int)
      requires Valid()
      modifies this
      ensures Valid() && ok == (old(list) != [])
      ensures ok ==> node == old(list)[0] && list == old(list)[1..]
      ensures !ok ==> list == old(list)
    {
      hide Spells, Without;
      var e := Empty();
      if e {
        return false, HEAD;
      }
      SpellsFront(lruNext, lruPrev, list);
      SpellsUnlink(lruNext, lruPrev, list, list[0]);
      node := lruNext[HEAD];
      var after := lruNext[node];
      lruNext := lruNext[HEAD := after];
      lruPrev := lruPrev[after := HEAD];
      SpellsOutside(lruNext, lruPrev, list[1..], node, NIL, NIL);
      lruNext := lruNext[node := NIL];
      lruPrev := lruPrev[node := NIL];
      inLru := inLru - {node};
      size := size - 1;
      list := list[1..];
      ok := true;
    }

    /** Make a member the most recent one; refused when not listed. */
    method MoveToBack(node: int) returns (ok: bool)
      requires Valid()
      modifies this
      ensures Valid() && ok == (node in old(list))
      ensures list == if ok then Without(old(list), node) + [node] else old(list)
    {
      if node !in inLru {
        return false;
      }
      assert node >= 0;
      hide Spells, Without;
      SpellsUnlink(lruNext, lruPrev, list, node);
      var before, after := lruPrev[node], lruNext[node];
      lruNext := lruNext[before := after];
      lruPrev := lruPrev[after := before];
      SpellsLink(lruNext, lruPrev, Without(list, node), node);
      var last := lruPrev[TAIL];
      lruNext := lruNext[last := node];
      lruPrev := lruPrev[node := last];
      lruNext := lruNext[node := TAIL];
      lruPrev := lruPrev[TAIL := node];
      list := Without(list, node) + [node];
      ok := true;
    }

    /** Detach a member; refused when not listed. */
    method Remove(node: int) returns (ok: bool)
      requires Valid()
      modifies this
      ensures Valid() && ok == (node in old(list))
      ensures list == if ok then Without(old(list), node) else old(list)
    {
      if node !in inLru {
        return false;
      }
      assert node >= 0;
      hide Spells, Without;
      SpellsUnlink(lruNext, lruPrev, list, node);
      var before, after := lruPrev[node], lruNext[node];
      lruNext := lruNext[before := after];
      lruPrev := lruPrev[after := before];
      SpellsOutside(lruNext, lruPrev, Without(list, node), node, NIL, NIL);
      lruNext := lruNext[node := NIL];
      lruPrev := lruPrev[node := NIL];
      inLru := inLru - {node};
      size := size - 1;
      list := Without(list, node);
      ok := true;
    }
  }
}
