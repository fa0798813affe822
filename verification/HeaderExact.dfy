/**
 The converse of the round trip: whatever the header parser accepts is a printed document, with
 exactly the tensors it reports. So the scanner's tolerance is the document grammar and nothing more.
 */
module HeaderExact {
  import opened Basics
  import opened JsonScan
  import opened Header
  import opened TensorSize
  import opened HeaderPrint

  lemma {:induction false} WsSplit(t: string) returns (w: string)
    ensures AllWs(w) && t == w + SkipWs(t)
  {
    if t != "" && IsWs(t[0]) {
      var v := WsSplit(t[1..]);
      w := [t[0]] + v;
      assert t == [t[0]] + t[1..];
    } else {
      w := "";
    }
  }

  lemma {:induction false} TailSplit(t: string)
    requires ReadTail(t).Some?
    ensures Plain(ReadTail(t).value.0) && t == ReadTail(t).value.0 + ("\"" + ReadTail(t).value.1)
  {
    if t[0] != '"' {
      TailSplit(t[1..]);
      assert t == [t[0]] + t[1..];
    } else {
      assert t == "" + ("\"" + t[1..]);
    }
  }

  lemma StringSplit(t: string)
    requires ReadString(t).Some?
    ensures Plain(ReadString(t).value.0) && t == "\"" + ReadString(t).value.0 + "\"" + ReadString(t).value.1
  {
    TailSplit(t[1..]);
    assert t == [t[0]] + t[1..];
  }

  lemma DigitHead(c: char, m: string, val: nat)
    requires IsDigit(c) && forall i :: 0 <= i < |m| ==> IsDigit(m[i])
    ensures forall i :: 0 <= i < |[c] + m| ==> IsDigit(([c] + m)[i])
    ensures ValueFrom([c] + m, val) == ValueFrom(m, val * 10 + Digit(c))
  {
    assert ([c] + m)[1..] == m;
  }

  lemma ReadDigitsMore(t: string, val: nat)
    ensures if t != "" && IsDigit(t[0]) then ReadDigits(t, val) == ReadDigits(t[1..], val * 10 + Digit(t[0])) else ReadDigits(t, val) == (val, t)
  {}

  lemma {:induction false} DigitsSplit(t: string, val: nat) returns (n: string)
    ensures (forall i :: 0 <= i < |n| ==> IsDigit(n[i])) && t == n + ReadDigits(t, val).1
    ensures ReadDigits(t, val).0 == ValueFrom(n, val)
    decreases |t|
  {
    hide ReadDigits;
    ReadDigitsMore(t, val);
    if t != "" && IsDigit(t[0]) {
      var m := DigitsSplit(t[1..], val * 10 + Digit(t[0]));
      n := [t[0]] + m;
      DigitHead(t[0], m, val);
      hide ValueFrom;
      assert t == [t[0]] + t[1..];
    } else {
      n := "";
    }
  }

  lemma UintSplit(t: string) returns (n: string)
    requires ReadUint(t).Some?
    ensures Digits(n) && t == n + ReadUint(t).value.1 && ReadUint(t).value.0 == ValueFrom(n, 0)
  {
    var m := DigitsSplit(t[1..], Digit(t[0]));
    n := [t[0]] + m;
    assert t == [t[0]] + t[1..] && n[1..] == m;
  }

  // ---------------------------------------------------------------- arrays

  /** The elements spell out the text up to the closing bracket. */
  ghost predicate SpellsElems(t: string, es: seq<Elem>, trailing: bool, vals: seq<nat>, r: string) {
    && (forall i :: 0 <= i < |es| ==> ElemOk(es[i]))
    && t == PrintElems(es, trailing) + r && Values(es) == vals
  }

  lemma ConsElems(x: Elem, es: seq<Elem>, trailing: bool, vals: seq<nat>, u: string, r: string)
    requires ElemOk(x) && SpellsElems(u, es, trailing, vals, r)
    ensures SpellsElems(x.digits + (x.before + ("," + (x.after + u))), [x] + es, if es == [] then true else trailing, [ElemValue(x)] + vals, r)
  {
    var all := [x] + es;
    assert all[1..] == es;
    var tr := if es == [] then true else trailing;
    assert PrintElems(es, trailing) == PrintElems(es, tr);
    assert x.digits + (x.before + ("," + (x.after + (PrintElems(es, tr) + r)))) == PrintElems(all, tr) + r;
  }

  lemma OneElem(x: Elem, r: string)
    requires ElemOk(x)
    ensures SpellsElems(x.digits + (x.before + ("]" + r)), [x], false, [ElemValue(x)], r)
  {
    assert [x][1..] == [] && [ElemValue(x)] + [] == [ElemValue(x)];
    assert x.digits + (x.before + ("]" + r)) == PrintElems([x], false) + r;
  }

  lemma {:induction false} ElemsSplit(t: string) returns (es: seq<Elem>, trailing: bool)
    requires ReadElems(t).Some?
    ensures SpellsElems(t, es, trailing, ReadElems(t).value.0, ReadElems(t).value.1)
    decreases |t|
  {
    hide SpellsElems, SkipWs, ReadUint;
    var r := ReadElems(t).value;
    if t[0] == ']' {
      es, trailing := [], false;
      NoElems(t);
    } else {
      var n := UintSplit(t);
      var u := SkipWs(ReadUint(t).value.1);
      var before := WsSplit(ReadUint(t).value.1);
      assert u == [u[0]] + u[1..];
      if u[0] == ']' {
        var x := Elem(n, before, "");
        es, trailing := [x], false;
        OneElem(x, u[1..]);
      } else {
        var after := WsSplit(u[1..]);
        var x := Elem(n, before, after);
        var more, tr := ElemsSplit(SkipWs(u[1..]));
        ConsElems(x, more, tr, ReadElems(SkipWs(u[1..])).value.0, SkipWs(u[1..]), r.1);
        es, trailing := [x] + more, if more == [] then true else tr;
      }
    }
  }

  lemma NoElems(t: string)
    requires t != "" && t[0] == ']'
    ensures SpellsElems(t, [], false, [], t[1..])
  {
    assert t == "]" + t[1..];
  }

  lemma ArrSplit(t: string) returns (a: Arr)
    requires ReadIntArray(t).Some?
    ensures ArrOk(a) && t == PrintArr(a) + ReadIntArray(t).value.1 && Values(a.elems) == ReadIntArray(t).value.0
  {
    var open := WsSplit(t[1..]);
    var es, trailing := ElemsSplit(SkipWs(t[1..]));
    a := Arr(open, es, trailing);
    var r := ReadIntArray(t).value.1;
    Regrouped("[", open, PrintElems(es, trailing), r);
    hide PrintElems, ReadElems, SkipWs, Values;
    assert t == [t[0]] + t[1..];
    assert PrintArr(a) + r == "[" + (open + (PrintElems(es, trailing) + r));
  }

  // ---------------------------------------------------------------- skipped objects

  /** The bodies of the objects still open, innermost first, each with its closing brace. */
  ghost function PrintOpen(bs: seq<Body>): string {
    if bs == [] then "" else PrintBody(bs[0]) + ("}" + PrintOpen(bs[1..]))
  }

  ghost predicate BodiesOk(bs: seq<Body>) {
    forall i :: 0 <= i < |bs| ==> BodyOk(bs[i])
  }

  /** Inside quotes: up to the closing quote. */
  lemma {:induction false} QuoteSplit(t: string, depth: nat) returns (text: string, u: string)
    requires depth > 0 && SkipBody(t, depth, true).Some?
    ensures Plain(text) && t == text + ("\"" + u) && SkipBody(u, depth, false) == SkipBody(t, depth, true)
    decreases |t|
  {
    assert t == [t[0]] + t[1..];
    if t[0] == '"' {
      text, u := "", t[1..];
    } else {
      var more;
      more, u := QuoteSplit(t[1..], depth);
      text := [t[0]] + more;
    }
  }

  lemma {:induction false} BodySplit(t: string, depth: nat) returns (bs: seq<Body>)
    requires SkipBody(t, depth, false).Some?
    ensures |bs| == depth && BodiesOk(bs) && t == PrintOpen(bs) + SkipBody(t, depth, false).value
    decreases |t|
  {
    if depth == 0 {
      bs := [];
    } else {
      assert t == [t[0]] + t[1..];
      var r := SkipBody(t, depth, false).value;
      if t[0] == '"' {
        var text, u := QuoteSplit(t[1..], depth);
        bs := BodySplit(u, depth);
        QuoteHead(bs, text, r);
        bs := [Quote(text, bs[0])] + bs[1..];
      } else if t[0] == '{' {
        bs := BodySplit(t[1..], depth + 1);
        NestHead(bs, r);
        bs := [Nest(bs[0], bs[1])] + bs[2..];
      } else if t[0] == '}' {
        bs := BodySplit(t[1..], depth - 1);
        CloseHead(bs, r);
        bs := [End] + bs;
      } else {
        bs := BodySplit(t[1..], depth);
        ChrHead(bs, t[0], r);
        bs := [Chr(t[0], bs[0])] + bs[1..];
      }
    }
  }

  lemma QuoteHead(bs: seq<Body>, text: string, r: string)
    requires bs != [] && BodiesOk(bs) && Plain(text)
    ensures var now := [Quote(text, bs[0])] + bs[1..];
      BodiesOk(now) && "\"" + (text + ("\"" + (PrintOpen(bs) + r))) == PrintOpen(now) + r
  {
    var now := [Quote(text, bs[0])] + bs[1..];
    assert BodyOk(bs[0]);
    assert BodiesOk(now);
    assert now[1..] == bs[1..];
    var a, rest := PrintBody(bs[0]), "}" + PrintOpen(bs[1..]);
    assert PrintOpen(now) == ("\"" + (text + ("\"" + a))) + rest;
    hide PrintOpen, BodiesOk, PrintBody;
    QuoteText(text, a, rest, r);
  }

  lemma QuoteText(text: string, a: string, rest: string, r: string)
    ensures "\"" + (text + ("\"" + ((a + rest) + r))) == (("\"" + (text + ("\"" + a))) + rest) + r
  {}

  lemma ChrText(c: char, a: string, rest: string, r: string)
    ensures [c] + ((a + rest) + r) == (([c] + a) + rest) + r
  {}

  lemma NestText(a: string, b: string, rest: string, r: string)
    ensures "{" + ((a + ("}" + (b + ("}" + rest)))) + r) == (("{" + (a + ("}" + b))) + ("}" + rest)) + r
  {}

  lemma NestHead(bs: seq<Body>, r: string)
    requires |bs| >= 2 && BodiesOk(bs)
    ensures var now := [Nest(bs[0], bs[1])] + bs[2..];
      BodiesOk(now) && "{" + (PrintOpen(bs) + r) == PrintOpen(now) + r
  {
    var now := [Nest(bs[0], bs[1])] + bs[2..];
    assert BodyOk(bs[0]) && BodyOk(bs[1]);
    assert BodiesOk(now);
    assert now[1..] == bs[2..] && bs[1..][1..] == bs[2..];
    var a, b, rest := PrintBody(bs[0]), PrintBody(bs[1]), PrintOpen(bs[2..]);
    assert PrintOpen(bs) == a + ("}" + (b + ("}" + rest)));
    assert PrintOpen(now) == PrintBody(now[0]) + ("}" + rest);
    hide PrintOpen, BodiesOk;
    NestText(a, b, rest, r);
  }

  lemma CloseHead(bs: seq<Body>, r: string)
    requires BodiesOk(bs)
    ensures BodiesOk([End] + bs) && "}" + (PrintOpen(bs) + r) == PrintOpen([End] + bs) + r
  {
    assert ([End] + bs)[1..] == bs;
  }

  lemma ChrHead(bs: seq<Body>, c: char, r: string)
    requires bs != [] && BodiesOk(bs) && c != '"' && c != '{' && c != '}' && c != '\\'
    ensures var now := [Chr(c, bs[0])] + bs[1..];
      BodiesOk(now) && [c] + (PrintOpen(bs) + r) == PrintOpen(now) + r
  {
    var now := [Chr(c, bs[0])] + bs[1..];
    assert BodyOk(bs[0]);
    assert BodiesOk(now);
    assert now[1..] == bs[1..];
    var a, rest := PrintBody(bs[0]), "}" + PrintOpen(bs[1..]);
    assert PrintOpen(now) == ([c] + a) + rest;
    hide PrintOpen, BodiesOk, PrintBody;
    ChrText(c, a, rest, r);
  }

  lemma ObjectSplit(t: string) returns (b: Body)
    requires SkipObject(t).Some?
    ensures BodyOk(b) && t == "{" + (PrintBody(b) + ("}" + SkipObject(t).value))
  {
    assert t == [t[0]] + t[1..];
    WsSkip(t[1..], 1);
    var bs := BodySplit(t[1..], 1);
    assert bs[1..] == [];
    b := bs[0];
    assert BodyOk(bs[0]);
    assert PrintOpen(bs) + SkipObject(t).value == PrintBody(b) + ("}" + SkipObject(t).value);
  }

  // ---------------------------------------------------------------- descriptors

  lemma ColonSplit(t: string) returns (w1: string, w2: string)
    requires ReadColon(t).Some?
    ensures AllWs(w1) && AllWs(w2) && t == w1 + (":" + (w2 + ReadColon(t).value))
  {
    w1 := WsSplit(t);
    var u := SkipWs(t);
    assert u == [u[0]] + u[1..];
    w2 := WsSplit(u[1..]);
  }

  lemma ValueSplit(field: string, t: string, acc: Fields) returns (v: Value)
    requires ReadValue(field, t, acc).Some?
    ensures NameOf(v) == field && FieldOk(Field("", "", v, "")) && t == PrintValue(v) + ReadValue(field, t, acc).value.1
    ensures Says(Field("", "", v, ""), acc) == ReadValue(field, t, acc).value.0
  {
    hide ReadString, ReadIntArray;
    if field == "dtype" {
      StringSplit(t);
      v := TypeOf(if ReadString(t).value.0 == "F32" then Float32 else BFloat16);
    } else {
      var a := ArrSplit(t);
      v := if field == "shape" then ShapeOf(a) else OffsetsOf(a);
    }
  }

  lemma FieldSplit(t: string, acc: Fields) returns (f: Field)
    requires ReadField(t, acc).Some?
    ensures FieldOk(f) && t == PrintField(f) + ReadField(t, acc).value.1 && Says(f, acc) == ReadField(t, acc).value.0
  {
    hide ReadString, ReadColon, ReadValue, PrintValue, Says, SkipWs;
    StringSplit(t);
    var name := ReadString(t).value;
    var w1, w2 := ColonSplit(name.1);
    var u := ReadColon(name.1).value;
    var v := ValueSplit(name.0, u, acc);
    var w3 := WsSplit(ReadValue(name.0, u, acc).value.1);
    f := Field(w1, w2, v, w3);
    SaysSame(f, acc);
    var r := ReadField(t, acc).value.1;
    assert PrintField(f) + r == "\"" + name.0 + "\"" + (w1 + (":" + (w2 + (PrintValue(v) + (w3 + r)))));
  }

  lemma SaysSame(f: Field, acc: Fields)
    requires FieldOk(Field("", "", f.value, "")) && FieldOk(f)
    ensures Says(f, acc) == Says(Field("", "", f.value, ""), acc)
  {}

  ghost predicate SpellsFields(t: string, fs: seq<Lead>, trailing: bool, w: string, acc: Fields, f: Fields, r: string) {
    FieldsOk(fs) && AllWs(w) && t == PrintFields(fs, trailing, w) + r && AllSay(fs, acc) == f
  }

  lemma NoFields(w: string, acc: Fields, r: string)
    requires AllWs(w)
    ensures SpellsFields(w + ("}" + r), [], false, w, acc, acc, r)
  {
    assert w + ("}" + r) == PrintFields([], false, w) + r;
  }

  lemma OneField(x: Lead, acc: Fields, r: string)
    requires AllWs(x.w0) && FieldOk(x.field)
    ensures SpellsFields(x.w0 + (PrintField(x.field) + ("}" + r)), [x], false, "", acc, Says(x.field, acc), r)
  {
    hide PrintField, Says, FieldOk;
    assert [x][1..] == [];
    assert FieldsOk([x]) && FieldsOk([x][1..]);
    assert AllSay([x], acc) == AllSay([x][1..], Says(x.field, acc));
    assert x.w0 + (PrintField(x.field) + ("}" + r)) == PrintFields([x], false, "") + r;
  }

  lemma ConsFields(x: Lead, fs: seq<Lead>, trailing: bool, w: string, acc: Fields, f: Fields, u: string, r: string)
    requires AllWs(x.w0) && FieldOk(x.field) && SpellsFields(u, fs, trailing, w, Says(x.field, acc), f, r)
    ensures SpellsFields(x.w0 + (PrintField(x.field) + ("," + u)), [x] + fs, if fs == [] then true else trailing, w, acc, f, r)
  {
    hide PrintField, Says, FieldOk;
    var all, tr := [x] + fs, if fs == [] then true else trailing;
    assert all[1..] == fs;
    assert FieldsOk(all);
    assert PrintFields(fs, trailing, w) == PrintFields(fs, tr, w);
    assert x.w0 + (PrintField(x.field) + ("," + (PrintFields(fs, tr, w) + r))) == PrintFields(all, tr, w) + r;
  }

  lemma {:induction false} FieldsSplit(t: string, acc: Fields) returns (fs: seq<Lead>, trailing: bool, w: string)
    requires ReadFields(t, acc).Some?
    ensures SpellsFields(t, fs, trailing, w, acc, ReadFields(t, acc).value.0, ReadFields(t, acc).value.1)
    decreases |t|
  {
    hide SpellsFields, SkipWs, ReadField, PrintField, Says;
    var w0 := WsSplit(t);
    var u := SkipWs(t);
    assert u == [u[0]] + u[1..];
    if u[0] == '}' {
      fs, trailing, w := [], false, w0;
      NoFields(w0, acc, u[1..]);
    } else {
      var x := FieldSplit(u, acc);
      var v := ReadField(u, acc).value.1;
      assert v == [v[0]] + v[1..];
      if v[0] == ',' {
        fs, trailing, w := FieldsSplit(v[1..], Says(x, acc));
        ConsFields(Lead(w0, x), fs, trailing, w, acc, ReadFields(t, acc).value.0, v[1..], ReadFields(t, acc).value.1);
        fs, trailing := [Lead(w0, x)] + fs, if fs == [] then true else trailing;
      } else {
        OneField(Lead(w0, x), acc, v[1..]);
        fs, trailing, w := [Lead(w0, x)], false, "";
      }
    }
  }

  // ---------------------------------------------------------------- entries

  lemma EntrySplit(t: string, dataStart: nat, acc: Tensors) returns (x: Entry)
    requires ReadEntry(t, dataStart, acc).Some?
    ensures EntryOk(x) && t == PrintEntry(x) + ReadEntry(t, dataStart, acc).value.1
    ensures Adds(x, dataStart, acc) == ReadEntry(t, dataStart, acc).value.0
  {
    hide ReadString, ReadColon, SkipWs, ReadFields, SkipObject, PrintFields, PrintBody, Finish, AllSay, SpanFits, MetaFor;
    StringSplit(t);
    var key := ReadString(t).value;
    var w1, w2 := ColonSplit(key.1);
    var u := ReadColon(key.1).value;
    var r := ReadEntry(t, dataStart, acc).value.1;
    if key.0 == METADATA {
      var b := ObjectSplit(u);
      var w3 := WsSplit(SkipObject(u).value);
      x := Metadata(w1, w2, b, w3);
      assert PrintEntry(x) + r == "\"" + METADATA + "\"" + (w1 + (":" + (w2 + ("{" + (PrintBody(b) + ("}" + (w3 + r)))))));
    } else {
      assert u == [u[0]] + u[1..];
      var fs, trailing, w := FieldsSplit(u[1..], NOTHING);
      var f := ReadFields(u[1..], NOTHING).value;
      FinishIff(f.0, dataStart);
      var w3 := WsSplit(f.1);
      x := Tensor(key.0, w1, w2, fs, trailing, w, w3);
      assert PrintEntry(x) + r == "\"" + key.0 + "\"" + (w1 + (":" + (w2 + ("{" + (PrintFields(fs, trailing, w) + (w3 + r))))));
    }
  }

  ghost predicate SpellsLines(t: string, es: seq<Line>, trailing: bool, w: string, dataStart: nat, acc: Tensors, all: Tensors, r: string) {
    LinesOk(es) && AllWs(w) && t == PrintLines(es, trailing, w) + r && AllAdd(es, dataStart, acc) == all
  }

  lemma NoLines(w: string, dataStart: nat, acc: Tensors, r: string)
    requires AllWs(w)
    ensures SpellsLines(w + ("}" + r), [], false, w, dataStart, acc, acc, r)
  {
    assert w + ("}" + r) == PrintLines([], false, w) + r;
  }

  lemma OneLine(x: Line, dataStart: nat, acc: Tensors, r: string)
    requires AllWs(x.w0) && EntryOk(x.entry)
    ensures SpellsLines(x.w0 + (PrintEntry(x.entry) + ("}" + r)), [x], false, "", dataStart, acc, Adds(x.entry, dataStart, acc), r)
  {
    hide PrintEntry, Adds, EntryOk;
    assert [x][1..] == [];
    assert LinesOk([x]) && LinesOk([x][1..]);
    assert AllAdd([x], dataStart, acc) == AllAdd([x][1..], dataStart, Adds(x.entry, dataStart, acc));
    assert x.w0 + (PrintEntry(x.entry) + ("}" + r)) == PrintLines([x], false, "") + r;
  }

  lemma ConsLines(x: Line, es: seq<Line>, trailing: bool, w: string, dataStart: nat, acc: Tensors, all: Tensors, u: string, r: string)
    requires AllWs(x.w0) && EntryOk(x.entry) && SpellsLines(u, es, trailing, w, dataStart, Adds(x.entry, dataStart, acc), all, r)
    ensures SpellsLines(x.w0 + (PrintEntry(x.entry) + ("," + u)), [x] + es, if es == [] then true else trailing, w, dataStart, acc, all, r)
  {
    hide PrintEntry, Adds, EntryOk;
    var ls, tr := [x] + es, if es == [] then true else trailing;
    assert ls[1..] == es;
    assert LinesOk(ls);
    assert PrintLines(es, trailing, w) == PrintLines(es, tr, w);
    assert x.w0 + (PrintEntry(x.entry) + ("," + (PrintLines(es, tr, w) + r))) == PrintLines(ls, tr, w) + r;
  }

  lemma {:induction false} LinesSplit(t: string, dataStart: nat, acc: Tensors) returns (es: seq<Line>, trailing: bool, w: string, r: string)
    requires ReadEntries(t, dataStart, acc).Some?
    ensures SpellsLines(t, es, trailing, w, dataStart, acc, ReadEntries(t, dataStart, acc).value, r)
    decreases |t|
  {
    hide SpellsLines, SkipWs, ReadEntry, PrintEntry, Adds, EntryOk;
    var w0 := WsSplit(t);
    var u := SkipWs(t);
    assert u == [u[0]] + u[1..];
    if u[0] == '}' {
      es, trailing, w, r := [], false, w0, u[1..];
      NoLines(w0, dataStart, acc, r);
    } else {
      var x := EntrySplit(u, dataStart, acc);
      var v := ReadEntry(u, dataStart, acc).value.1;
      assert v == [v[0]] + v[1..];
      if v[0] == ',' {
        es, trailing, w, r := LinesSplit(v[1..], dataStart, Adds(x, dataStart, acc));
        ConsLines(Line(w0, x), es, trailing, w, dataStart, acc, ReadEntries(t, dataStart, acc).value, v[1..], r);
        es, trailing := [Line(w0, x)] + es, if es == [] then true else trailing;
      } else {
        OneLine(Line(w0, x), dataStart, acc, v[1..]);
        es, trailing, w, r := [Line(w0, x)], false, "", v[1..];
      }
    }
  }

  /**
   Exactness: a header text is accepted if and only if it is a printed document, and the tensors
   reported are the ones the document describes.
   */
  lemma AcceptsExactly(t: string, dataStart: nat, ts: Tensors)
    ensures ParseText(t, dataStart) == Some(ts)
      <==> exists doc :: DocOk(doc) && t == PrintDoc(doc) && ts == AllAdd(doc.lines, dataStart, map[])
  {
    if ParseText(t, dataStart) == Some(ts) {
      var doc := DocSplit(t, dataStart);
      assert DocOk(doc) && t == PrintDoc(doc) && ts == AllAdd(doc.lines, dataStart, map[]);
    }
    if doc :| DocOk(doc) && t == PrintDoc(doc) && ts == AllAdd(doc.lines, dataStart, map[]) {
      DocRead(doc, dataStart);
    }
  }

  lemma DocRead(doc: Doc, dataStart: nat)
    requires DocOk(doc)
    ensures ParseText(PrintDoc(doc), dataStart) == Some(AllAdd(doc.lines, dataStart, map[]))
  {
    hide PrintLines, ReadEntries, SkipWs;
    var body := PrintLines(doc.lines, doc.trailing, doc.w) + doc.padding;
    WsRead(doc.w0, "{" + body);
    assert ("{" + body)[1..] == body;
    LinesRead(doc.lines, doc.trailing, doc.w, doc.padding, dataStart, map[]);
  }

  lemma DocSplit(t: string, dataStart: nat) returns (doc: Doc)
    requires ParseText(t, dataStart).Some?
    ensures DocOk(doc) && t == PrintDoc(doc) && ParseText(t, dataStart).value == AllAdd(doc.lines, dataStart, map[])
  {
    hide PrintLines, ReadEntries, SkipWs;
    var w0 := WsSplit(t);
    var u := SkipWs(t);
    assert u == [u[0]] + u[1..];
    var es, trailing, w, r := LinesSplit(u[1..], dataStart, map[]);
    doc := Doc(w0, es, trailing, w, r);
    assert t == w0 + ("{" + (PrintLines(es, trailing, w) + r));
  }
}
