/**
 The header scanner: whitespace, strings, unsigned numbers, number arrays and skipped objects. Each
 reader is a function from the text that is left to a value and the text left after it; the scanning
 loops over a position are proved to compute it.
 */
module JsonScan {
  import opened Basics

  predicate IsWs(c: char) {
    c == ' ' || c == '\n' || c == '\r' || c == '\t'
  }

  predicate IsDigit(c: char) {
    '0' <= c <= '9'
  }

  function Digit(c: char): nat
    requires IsDigit(c)
  {
    c as int - '0' as int
  }

  // ---------------------------------------------------------------- the readers

  function SkipWs(t: string): (r: string)
    ensures |r| <= |t|
    ensures r != "" ==> !IsWs(r[0])
  {
    if t != "" && IsWs(t[0]) then SkipWs(t[1..]) else t
  }

  /** Characters up to the closing quote; a backslash is rejected. */
  function ReadTail(t: string): (r: Option<(string, string)>)
    ensures r.Some? ==> |r.value.0| + 1 + |r.value.1| == |t|
  {
    if t == "" then None
    else if t[0] == '"' then Some(("", t[1..]))
    else if t[0] == '\\' then None
    else
      var r := ReadTail(t[1..]);
      if r.None? then None else Some(([t[0]] + r.value.0, r.value.1))
  }

  function ReadString(t: string): (r: Option<(string, string)>)
    ensures r.Some? ==> |r.value.1| < |t|
  {
    if t == "" || t[0] != '"' then None else ReadTail(t[1..])
  }

  function ReadDigits(t: string, val: nat): (r: (nat, string))
    ensures |r.1| <= |t|
    decreases |t|
  {
    if t != "" && IsDigit(t[0]) then ReadDigits(t[1..], val * 10 + Digit(t[0])) else (val, t)
  }

  function ReadUint(t: string): (r: Option<(nat, string)>)
    ensures r.Some? ==> |r.value.1| < |t|
  {
    if t == "" || !IsDigit(t[0]) then None else Some(ReadDigits(t[1..], Digit(t[0])))
  }

  /** Elements up to the closing bracket; a comma may stand before it. */
  function ReadElems(t: string): (r: Option<(seq<nat>, string)>)
    ensures r.Some? ==> |r.value.1| < |t|
    decreases |t|
  {
    if t == "" then None
    else if t[0] == ']' then Some(([], t[1..]))
    else
      var v := ReadUint(t);
      if v.None? then None
      else
        var u := SkipWs(v.value.1);
        if u == "" then None
        else if u[0] == ']' then Some(([v.value.0], u[1..]))
        else if u[0] == ',' then
          var r := ReadElems(SkipWs(u[1..]));
          if r.None? then None else Some(([v.value.0] + r.value.0, r.value.1))
        else None
  }

  function ReadIntArray(t: string): (r: Option<(seq<nat>, string)>)
    ensures r.Some? ==> |r.value.1| < |t|
  {
    if t == "" || t[0] != '[' then None else ReadElems(SkipWs(t[1..]))
  }

  /** Brace matching; braces inside quotes do not count, backslashes are rejected anywhere. */
  function SkipBody(t: string, depth: nat, inString: bool): (r: Option<string>)
    ensures r.Some? ==> |r.value| <= |t|
    decreases |t|
  {
    if depth == 0 then Some(t)
    else if t == "" then None
    else if t[0] == '"' then SkipBody(t[1..], depth, !inString)
    else if t[0] == '{' then SkipBody(t[1..], if inString then depth else depth + 1, inString)
    else if t[0] == '}' then SkipBody(t[1..], if inString then depth else depth - 1, inString)
    else if t[0] == '\\' then None
    else SkipBody(t[1..], depth, inString)
  }

  function SkipObject(t: string): (r: Option<string>)
    ensures r.Some? ==> |r.value| < |t|
  {
    if t == "" || t[0] != '{' then None else SkipBody(SkipWs(t[1..]), 1, false)
  }

  // ---------------------------------------------------------------- the scanning loops

  /** Position `q` of `s` is where the text `rest` begins. */
  ghost predicate Rest(s: string, q: nat, rest: string) {
    q <= |s| && s[q..] == rest
  }

  lemma Next(s: string, p: nat)
    requires p < |s|
    ensures s[p..] != "" && s[p..][0] == s[p] && s[p..][1..] == s[p + 1..]
  {}

  method ScanWs(s: string, p: nat) returns (q: nat)
    requires p <= |s|
    ensures p <= q <= |s| && Rest(s, q, SkipWs(s[p..]))
  {
    q := p;
    while q < |s| && (s[q] == ' ' || s[q] == '\n' || s[q] == '\r' || s[q] == '\t')
      invariant p <= q <= |s| && SkipWs(s[q..]) == SkipWs(s[p..])
    {
      Next(s, q);
      q := q + 1;
    }
    if q < |s| { Next(s, q); }
  }

  method ScanString(s: string, p: nat) returns (ok: bool, q: nat, val: string)
    requires p <= |s|
    ensures ok == ReadString(s[p..]).Some?
    ensures ok ==> p < q <= |s| && val == ReadString(s[p..]).value.0 && Rest(s, q, ReadString(s[p..]).value.1)
  {
    if p == |s| || s[p] != '"' {
      return false, p, "";
    }
    Next(s, p);
    val := "";
    q := p + 1;
    ghost var whole := ReadTail(s[p + 1..]);
    assert whole.Some? ==> val + whole.value.0 == whole.value.0;
    while q < |s| && s[q] != '"'
      invariant p < q <= |s|
      invariant ReadTail(s[p + 1..]).Some? == ReadTail(s[q..]).Some?
      invariant ReadTail(s[q..]).Some? ==>
        ReadTail(s[p + 1..]).value == (val + ReadTail(s[q..]).value.0, ReadTail(s[q..]).value.1)
    {
      Next(s, q);
      if s[q] == '\\' {
        return false, q, "";
      }
      ghost var r := ReadTail(s[q + 1..]);
      assert r.Some? ==> val + ([s[q]] + r.value.0) == (val + [s[q]]) + r.value.0;
      val := val + [s[q]];
      q := q + 1;
    }
    if q == |s| {
      return false, q, "";
    }
    Next(s, q);
    assert val + "" == val;
    q := q + 1;
    ok := true;
  }

  method ScanUint(s: string, p: nat) returns (ok: bool, q: nat, val: nat)
    requires p <= |s|
    ensures ok == ReadUint(s[p..]).Some?
    ensures ok ==> p < q <= |s| && val == ReadUint(s[p..]).value.0 && Rest(s, q, ReadUint(s[p..]).value.1)
  {
    if p == |s| {
      return false, p, 0;
    }
    Next(s, p);
    if s[p] == '-' {
      return false, p, 0;
    }
    if s[p] < '0' || s[p] > '9' {
      return false, p, 0;
    }
    val := 0;
    q := p;
    while q < |s| && '0' <= s[q] <= '9'
      invariant p <= q <= |s| && ReadDigits(s[q..], val) == ReadDigits(s[p..], 0)
    {
      Next(s, q);
      val := val * 10 + Digit(s[q]);
      q := q + 1;
    }
    if q < |s| { Next(s, q); }
    ok := true;
  }

  method ScanIntArray(s: string, p: nat) returns (ok: bool, q: nat, vals: seq<nat>)
    requires p <= |s|
    ensures ok == ReadIntArray(s[p..]).Some?
    ensures ok ==> p < q <= |s| && vals == ReadIntArray(s[p..]).value.0 && Rest(s, q, ReadIntArray(s[p..]).value.1)
  {
    if p == |s| || s[p] != '[' {
      return false, p, [];
    }
    Next(s, p);
    vals := [];
    q := ScanWs(s, p + 1);
    ghost var all := ReadIntArray(s[p..]);
    assert all.Some? ==> vals + all.value.0 == all.value.0;
    var more := true;
    while more && q < |s| && s[q] != ']'
      invariant p < q <= |s|
      invariant Elems(all, vals, ReadElems(s[q..]))
      invariant !more ==> q == |s| || s[q] == ']'
      decreases |s| - q, more
    {
      Next(s, q);
      var good, val;
      ghost var t := s[q..];
      good, q, val := ScanUint(s, q);
      if !good {
        return false, q, [];
      }
      q := ScanWs(s, q);
      ghost var was := vals;
      vals := vals + [val];
      if q < |s| { Next(s, q); }
      if q == |s| || s[q] == ']' {
        more := false;
        ElemsStep(all, was, val, t, s[q..]);
      } else if s[q] == ',' {
        q := ScanWs(s, q + 1);
        ElemsStep(all, was, val, t, s[q..]);
      } else {
        return false, q, [];
      }
    }
    if q == |s| {
      return false, q, [];
    }
    Next(s, q);
    assert vals + [] == vals;
    q := q + 1;
    ok := true;
  }

  /** The elements read so far, followed by what is still to come, are all of them. */
  ghost predicate Elems(all: Option<(seq<nat>, string)>, vals: seq<nat>, todo: Option<(seq<nat>, string)>) {
    && all.Some? == todo.Some?
    && (todo.Some? ==> all.value == (vals + todo.value.0, todo.value.1))
  }

  lemma ElemsStep(all: Option<(seq<nat>, string)>, vals: seq<nat>, val: nat, t: string, u: string)
    requires Elems(all, vals, ReadElems(t)) && t != "" && t[0] != ']' && ReadUint(t).Some? && val == ReadUint(t).value.0
    requires var w := SkipWs(ReadUint(t).value.1);
      if w == "" then u == "" else if w[0] == ']' then u == w else w[0] == ',' && u == SkipWs(w[1..])
    ensures Elems(all, vals + [val], ReadElems(u))
  {
    var r := ReadElems(u);
    if r.Some? { assert vals + ([val] + r.value.0) == (vals + [val]) + r.value.0; assert [val] + [] == [val]; }
  }

  method ScanObject(s: string, p: nat) returns (ok: bool, q: nat)
    requires p <= |s|
    ensures ok == SkipObject(s[p..]).Some?
    ensures ok ==> p < q <= |s| && Rest(s, q, SkipObject(s[p..]).value)
  {
    if p == |s| || s[p] != '{' {
      return false, p;
    }
    Next(s, p);
    q := ScanWs(s, p + 1);
    var depth := 1;
    var inString := false;
    while q < |s| && depth != 0
      invariant p < q <= |s| && 0 <= depth
      invariant SkipBody(s[q..], depth, inString) == SkipObject(s[p..])
    {
      Next(s, q);
      if s[q] == '"' {
        inString := !inString;
      } else if s[q] == '{' {
        depth := depth + if inString then 0 else 1;
      } else if s[q] == '}' {
        depth := depth - if inString then 0 else 1;
      } else if s[q] == '\\' {
        return false, q;
      }
      q := q + 1;
    }
    if depth != 0 {
      return false, q;
    }
    ok := true;
  }

  // ---------------------------------------------------------------- reading back what is printed

  ghost predicate AllWs(w: string) {
    forall i :: 0 <= i < |w| ==> IsWs(w[i])
  }

  /** What follows does not begin with whitespace. */
  ghost predicate Solid(t: string) {
    t == "" || !IsWs(t[0])
  }

  lemma {:induction false} WsRead(w: string, t: string)
    requires AllWs(w) && Solid(t)
    ensures SkipWs(w + t) == t
  {
    if w == "" {
      assert w + t == t;
    } else {
      assert (w + t)[1..] == w[1..] + t;
      assert AllWs(w[1..]) by { assert forall i :: 0 <= i < |w[1..]| ==> w[1..][i] == w[i + 1]; }
      WsRead(w[1..], t);
    }
  }

  /** A string the scanner can hold. */
  ghost predicate Plain(k: string) {
    forall i :: 0 <= i < |k| ==> k[i] != '"' && k[i] != '\\'
  }

  lemma {:induction false} TailRead(k: string, t: string)
    requires Plain(k)
    ensures ReadTail(k + "\"" + t) == Some((k, t))
  {
    var u := k + "\"" + t;
    if k == "" {
      assert u[1..] == t;
    } else {
      assert u[1..] == k[1..] + "\"" + t;
      assert Plain(k[1..]) by { assert forall i :: 0 <= i < |k[1..]| ==> k[1..][i] == k[i + 1]; }
      TailRead(k[1..], t);
      assert [k[0]] + k[1..] == k;
    }
  }

  lemma StringRead(k: string, t: string)
    requires Plain(k)
    ensures ReadString("\"" + k + "\"" + t) == Some((k, t))
  {
    assert ("\"" + k + "\"" + t)[1..] == k + "\"" + t;
    TailRead(k, t);
  }

  /** A number written in digits. */
  ghost predicate Digits(n: string) {
    n != "" && forall i :: 0 <= i < |n| ==> IsDigit(n[i])
  }

  function ValueFrom(n: string, val: nat): nat
    requires forall i :: 0 <= i < |n| ==> IsDigit(n[i])
    decreases |n|
  {
    if n == "" then val else ValueFrom(n[1..], val * 10 + Digit(n[0]))
  }

  lemma {:induction false} DigitsRead(n: string, val: nat, t: string)
    requires (forall i :: 0 <= i < |n| ==> IsDigit(n[i])) && (t == "" || !IsDigit(t[0]))
    ensures ReadDigits(n + t, val) == (ValueFrom(n, val), t)
    decreases |n|
  {
    if n == "" {
      assert n + t == t;
    } else {
      assert (n + t)[1..] == n[1..] + t;
      DigitsRead(n[1..], val * 10 + Digit(n[0]), t);
    }
  }

  lemma UintRead(n: string, t: string)
    requires Digits(n) && (t == "" || !IsDigit(t[0]))
    ensures ReadUint(n + t) == Some((ValueFrom(n, 0), t))
  {
    assert (n + t)[1..] == n[1..] + t;
    DigitsRead(n[1..], Digit(n[0]), t);
  }

  /** The decimal digits of a number. */
  function Decimal(v: nat): (n: string) {
    if v < 10 then [(v + '0' as int) as char] else Decimal(v / 10) + [(v % 10 + '0' as int) as char]
  }

  lemma {:induction false} ValueAppend(n: string, c: char, val: nat)
    requires (forall i :: 0 <= i < |n| ==> IsDigit(n[i])) && IsDigit(c)
    ensures forall i :: 0 <= i < |n + [c]| ==> IsDigit((n + [c])[i])
    ensures ValueFrom(n + [c], val) == ValueFrom(n, val) * 10 + Digit(c)
    decreases |n|
  {
    if n == "" {
      assert (n + [c])[1..] == "";
    } else {
      assert (n + [c])[1..] == n[1..] + [c];
      ValueAppend(n[1..], c, val * 10 + Digit(n[0]));
    }
  }

  /** Every number has a spelling that reads back as itself. */
  lemma {:induction false} DecimalValue(v: nat)
    ensures Digits(Decimal(v)) && ValueFrom(Decimal(v), 0) == v
  {
    if v >= 10 {
      DecimalValue(v / 10);
      ValueAppend(Decimal(v / 10), (v % 10 + '0' as int) as char, 0);
    }
  }
}
