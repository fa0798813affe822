/**
 Headers as written documents: any whitespace, optional trailing commas, repeated and reordered
 fields, and brace-nested metadata. Parsing a printed document gives exactly what it describes.
 */
module HeaderPrint {
  import opened Basics
  import opened JsonScan
  import opened Header
  import opened TensorSize
  import I = IndexMaps

  // ---------------------------------------------------------------- number arrays

  /** A number and the whitespace before and after the comma that follows it. */
  datatype Elem = Elem(digits: string, before: string, after: string)

  datatype Arr = Arr(open: string, elems: seq<Elem>, trailing: bool)

  ghost predicate ElemOk(x: Elem) {
    Digits(x.digits) && AllWs(x.before) && AllWs(x.after)
  }

  ghost predicate ArrOk(a: Arr) {
    AllWs(a.open) && forall i :: 0 <= i < |a.elems| ==> ElemOk(a.elems[i])
  }

  ghost function PrintElems(es: seq<Elem>, trailing: bool): string {
    if es == [] then "]"
    else
      var tail := if |es| > 1 || trailing then "," + (es[0].after + PrintElems(es[1..], trailing)) else "]";
      es[0].digits + (es[0].before + tail)
  }

  ghost function PrintArr(a: Arr): string {
    "[" + (a.open + PrintElems(a.elems, a.trailing))
  }

  ghost function Values(es: seq<Elem>): (r: seq<nat>)
    requires forall i :: 0 <= i < |es| ==> ElemOk(es[i])
    ensures |r| == |es|
  {
    if es == [] then [] else
      assert ElemOk(es[0]);
      [ElemValue(es[0])] + Values(es[1..])
  }

  /** One element that more text follows. */
  lemma ElemRead(x: Elem, tail: string, t: string)
    requires ElemOk(x) && tail != "" && (tail[0] == ',' || tail[0] == ']')
    ensures var u := x.digits + (x.before + (tail + t));
      && u[0] != ']' && Solid(u) && ReadUint(u) == Some((ValueFrom(x.digits, 0), x.before + (tail + t)))
      && SkipWs(x.before + (tail + t)) == tail + t
  {
    hide ReadUint, SkipWs;
    NotDigit(x.before, tail + t);
    UintRead(x.digits, x.before + (tail + t));
    WsRead(x.before, tail + t);
    assert IsDigit(x.digits[0]);
  }

  ghost function ElemValue(x: Elem): nat
    requires ElemOk(x)
  {
    ValueFrom(x.digits, 0)
  }

  /** Reading one element and then what its tail leads to. */
  lemma ElemStep(x: Elem, tail: string, t: string)
    requires ElemOk(x) && tail != "" && (tail[0] == ',' || tail[0] == ']')
    ensures var u := x.digits + (x.before + (tail + t));
      && Solid(u)
      && (tail[0] == ']' ==> ReadElems(u) == Some(([ElemValue(x)], tail[1..] + t)))
      && (tail[0] == ',' ==>
            var r := ReadElems(SkipWs(tail[1..] + t));
            r.Some? ==> ReadElems(u) == Some(([ElemValue(x)] + r.value.0, r.value.1)))
  {
    hide SkipWs, ReadUint;
    ElemRead(x, tail, t);
    assert (tail + t)[1..] == tail[1..] + t;
  }

  ghost function Tail(es: seq<Elem>, trailing: bool): string
    requires es != []
  {
    if |es| > 1 || trailing then "," + (es[0].after + PrintElems(es[1..], trailing)) else "]"
  }

  lemma PrintCons(es: seq<Elem>, trailing: bool, t: string)
    requires es != []
    ensures var (x, tail) := (es[0], Tail(es, trailing));
      && tail != "" && PrintElems(es, trailing) + t == x.digits + (x.before + (tail + t))
      && (if |es| > 1 || trailing then tail[0] == ',' && tail[1..] + t == x.after + (PrintElems(es[1..], trailing) + t)
          else tail[0] == ']' && tail[1..] + t == t)
  {}

  lemma {:induction false} ElemsRead(es: seq<Elem>, trailing: bool, t: string)
    requires forall i :: 0 <= i < |es| ==> ElemOk(es[i])
    ensures Solid(PrintElems(es, trailing) + t)
    ensures ReadElems(PrintElems(es, trailing) + t) == Some((Values(es), t))
    decreases |es|
  {
    if es == [] {
      assert ("]" + t)[1..] == t;
    } else {
      hide ReadElems, SkipWs, ElemOk, PrintElems, Tail, Solid;
      var x := es[0];
      assert ElemOk(x);
      PrintCons(es, trailing, t);
      ElemStep(x, Tail(es, trailing), t);
      ElemsRead(es[1..], trailing, t);
      if |es| > 1 || trailing {
        ElemAfter(x, PrintElems(es[1..], trailing) + t);
      } else {
        assert es[1..] == [] && [ElemValue(x)] + [] == [ElemValue(x)];
      }
    }
  }

  lemma ElemAfter(x: Elem, t: string)
    requires ElemOk(x) && Solid(t)
    ensures SkipWs(x.after + t) == t
  {
    WsRead(x.after, t);
  }

  lemma NotDigit(w: string, t: string)
    requires AllWs(w) && t != "" && !IsDigit(t[0])
    ensures w + t != "" && !IsDigit((w + t)[0])
  {
    if w != "" { assert IsWs(w[0]); }
  }

  lemma ArrRead(a: Arr, t: string)
    requires ArrOk(a)
    ensures ReadIntArray(PrintArr(a) + t) == Some((Values(a.elems), t))
  {
    var u := a.open + (PrintElems(a.elems, a.trailing) + t);
    assert (PrintArr(a) + t)[1..] == u;
    ElemsRead(a.elems, a.trailing, t);
    WsRead(a.open, PrintElems(a.elems, a.trailing) + t);
  }

  // ---------------------------------------------------------------- metadata

  /** The inside of a brace-nested object, as far as the scanner looks: braces, quotes and the rest. */
  datatype Body =
    | End
    | Chr(c: char, rest: Body)
    | Quote(text: string, rest: Body)
    | Nest(inner: Body, rest: Body)

  ghost predicate BodyOk(b: Body) {
    match b
    case End => true
    case Chr(c, rest) => c != '"' && c != '{' && c != '}' && c != '\\' && BodyOk(rest)
    case Quote(text, rest) => Plain(text) && BodyOk(rest)
    case Nest(inner, rest) => BodyOk(inner) && BodyOk(rest)
  }

  ghost function PrintBody(b: Body): string {
    match b
    case End => ""
    case Chr(c, rest) => [c] + PrintBody(rest)
    case Quote(text, rest) => "\"" + (text + ("\"" + PrintBody(rest)))
    case Nest(inner, rest) => "{" + (PrintBody(inner) + ("}" + PrintBody(rest)))
  }

  lemma {:induction false} QuotedSkip(text: string, t: string, depth: nat)
    requires Plain(text) && depth > 0
    ensures SkipBody(text + ("\"" + t), depth, true) == SkipBody(t, depth, false)
  {
    var u := text + ("\"" + t);
    if text == "" {
      assert u[1..] == t;
    } else {
      assert u[1..] == text[1..] + ("\"" + t);
      assert Plain(text[1..]) by { assert forall i :: 0 <= i < |text[1..]| ==> text[1..][i] == text[i + 1]; }
      QuotedSkip(text[1..], t, depth);
    }
  }

  /** One character of each kind, outside quotes. */
  lemma SkipFirst(t: string, depth: nat)
    requires depth > 0 && t != ""
    ensures t[0] == '"' ==> SkipBody(t, depth, false) == SkipBody(t[1..], depth, true)
    ensures t[0] == '{' ==> SkipBody(t, depth, false) == SkipBody(t[1..], depth + 1, false)
    ensures t[0] == '}' ==> SkipBody(t, depth, false) == SkipBody(t[1..], depth - 1, false)
    ensures t[0] !in {'"', '{', '}', '\\'} ==> SkipBody(t, depth, false) == SkipBody(t[1..], depth, false)
  {}

  lemma {:induction false} BodySkip(b: Body, t: string, depth: nat)
    requires BodyOk(b) && depth > 0
    ensures SkipBody(PrintBody(b) + t, depth, false) == SkipBody(t, depth, false)
    decreases b, 1
  {
    hide SkipBody;
    var s := PrintBody(b) + t;
    match b
    case End => assert "" + t == t;
    case Chr(c, rest) =>
      SkipFirst(s, depth);
      assert s[1..] == PrintBody(rest) + t;
      BodySkip(rest, t, depth);
    case Quote(text, rest) =>
      SkipFirst(s, depth);
      assert s[1..] == text + ("\"" + (PrintBody(rest) + t));
      QuotedSkip(text, PrintBody(rest) + t, depth);
      BodySkip(rest, t, depth);
    case Nest(inner, rest) =>
      NestSkip(inner, rest, t, depth);
  }

  lemma NestSkip(inner: Body, rest: Body, t: string, depth: nat)
    requires BodyOk(inner) && BodyOk(rest) && depth > 0
    ensures SkipBody(PrintBody(Nest(inner, rest)) + t, depth, false) == SkipBody(t, depth, false)
    decreases Nest(inner, rest), 0
  {
    hide SkipBody;
    var s, v := PrintBody(Nest(inner, rest)) + t, "}" + (PrintBody(rest) + t);
    SkipFirst(s, depth);
    assert s[1..] == PrintBody(inner) + v;
    BodySkip(inner, v, depth + 1);
    SkipFirst(v, depth + 1);
    assert v[1..] == PrintBody(rest) + t;
    BodySkip(rest, t, depth);
  }

  lemma {:induction false} WsSkip(t: string, depth: nat)
    requires depth > 0
    ensures SkipBody(SkipWs(t), depth, false) == SkipBody(t, depth, false)
    decreases |t|
  {
    if t != "" && IsWs(t[0]) { WsSkip(t[1..], depth); }
  }

  /** A brace-nested object is skipped to just past its closing brace. */
  lemma ObjectSkip(b: Body, t: string)
    requires BodyOk(b)
    ensures SkipObject("{" + (PrintBody(b) + ("}" + t))) == Some(t)
  {
    var u := PrintBody(b) + ("}" + t);
    assert ("{" + u)[1..] == u;
    WsSkip(u, 1);
    BodySkip(b, "}" + t, 1);
    assert ("}" + t)[1..] == t;
  }

  // ---------------------------------------------------------------- descriptors

  datatype Value = TypeOf(dtype: DType) | ShapeOf(dims: Arr) | OffsetsOf(span: Arr)

  /** `"name" w1 : w2 value w3`. */
  datatype Field = Field(w1: string, w2: string, value: Value, w3: string)

  ghost predicate FieldOk(f: Field) {
    && AllWs(f.w1) && AllWs(f.w2) && AllWs(f.w3)
    && match f.value
       case TypeOf(_) => true
       case ShapeOf(a) => ArrOk(a)
       case OffsetsOf(a) => ArrOk(a) && |a.elems| == 2
  }

  function NameOf(v: Value): string {
    match v
    case TypeOf(_) => "dtype"
    case ShapeOf(_) => "shape"
    case OffsetsOf(_) => "data_offsets"
  }

  ghost function PrintValue(v: Value): string {
    match v
    case TypeOf(d) => "\"" + d.Name() + "\""
    case ShapeOf(a) => PrintArr(a)
    case OffsetsOf(a) => PrintArr(a)
  }

  /** What a field says. */
  ghost function Says(f: Field, acc: Fields): Fields
    requires FieldOk(f)
  {
    match f.value
    case TypeOf(d) => acc.(dtype := Some(d))
    case ShapeOf(a) => acc.(shape := Some(Values(a.elems)))
    case OffsetsOf(a) => acc.(offsets := Some((Values(a.elems)[0], Values(a.elems)[1])))
  }

  ghost function PrintField(f: Field): string {
    "\"" + NameOf(f.value) + "\"" + (f.w1 + (":" + (f.w2 + (PrintValue(f.value) + f.w3))))
  }

  lemma NamePlain(v: Value)
    ensures Plain(NameOf(v))
  {}

  lemma DTypeRead(d: DType, t: string)
    ensures ReadString("\"" + d.Name() + "\"" + t) == Some((d.Name(), t))
  {
    assert Plain(d.Name());
    StringRead(d.Name(), t);
  }

  lemma ValueRead(f: Field, t: string, acc: Fields)
    requires FieldOk(f)
    ensures ReadValue(NameOf(f.value), PrintValue(f.value) + t, acc) == Some((Says(f, acc), t))
    ensures Solid(PrintValue(f.value) + t)
  {
    hide ReadString, ReadIntArray;
    match f.value
    case TypeOf(d) =>
      DTypeRead(d, t);
      assert PrintValue(f.value) + t == "\"" + d.Name() + "\"" + t;
    case ShapeOf(a) => ArrRead(a, t);
    case OffsetsOf(a) => ArrRead(a, t);
  }

  lemma ColonRead(w1: string, w2: string, t: string)
    requires AllWs(w1) && AllWs(w2) && Solid(t)
    ensures ReadColon(w1 + (":" + (w2 + t))) == Some(t)
  {
    WsRead(w1, ":" + (w2 + t));
    assert (":" + (w2 + t))[1..] == w2 + t;
    WsRead(w2, t);
  }

  lemma FieldRead(f: Field, t: string, acc: Fields)
    requires FieldOk(f) && Solid(t)
    ensures ReadField(PrintField(f) + t, acc) == Some((Says(f, acc), t))
    ensures Solid(PrintField(f) + t) && PrintField(f)[0] == '"'
  {
    hide ReadString, ReadColon, ReadValue, SkipWs, PrintValue, Says;
    var v := f.w3 + t;
    var u := f.w1 + (":" + (f.w2 + (PrintValue(f.value) + v)));
    NamePlain(f.value);
    StringRead(NameOf(f.value), u);
    assert PrintField(f) + t == "\"" + NameOf(f.value) + "\"" + u;
    ValueRead(f, v, acc);
    ColonRead(f.w1, f.w2, PrintValue(f.value) + v);
    WsRead(f.w3, t);
  }

  /** Whitespace before each name; `w` stands before a closing brace that follows a comma or nothing. */
  datatype Lead = Lead(w0: string, field: Field)

  ghost predicate FieldsOk(fs: seq<Lead>) {
    forall i :: 0 <= i < |fs| ==> AllWs(fs[i].w0) && FieldOk(fs[i].field)
  }

  ghost function PrintFields(fs: seq<Lead>, trailing: bool, w: string): string {
    if fs == [] then w + "}"
    else
      var tail := if |fs| > 1 || trailing then "," + PrintFields(fs[1..], trailing, w) else "}";
      fs[0].w0 + (PrintField(fs[0].field) + tail)
  }

  ghost function AllSay(fs: seq<Lead>, acc: Fields): Fields
    requires FieldsOk(fs)
    decreases |fs|
  {
    if fs == [] then acc else
      assert FieldOk(fs[0].field);
      AllSay(fs[1..], Says(fs[0].field, acc))
  }

  lemma Regrouped(a: string, b: string, c: string, t: string)
    ensures (a + (b + c)) + t == a + (b + (c + t))
  {}

  lemma RestOf(c: string, rest: string, t: string)
    requires |c| == 1
    ensures ((c + rest) + t)[1..] == rest + t && (c + rest)[0] == c[0]
  {}

  ghost function FieldsTail(fs: seq<Lead>, trailing: bool, w: string): string
    requires fs != []
  {
    if |fs| > 1 || trailing then "," + PrintFields(fs[1..], trailing, w) else "}"
  }

  lemma PrintFieldsCons(fs: seq<Lead>, trailing: bool, w: string, t: string)
    requires fs != []
    ensures var tail := FieldsTail(fs, trailing, w);
      && tail != "" && PrintFields(fs, trailing, w) + t == fs[0].w0 + (PrintField(fs[0].field) + (tail + t))
      && (if |fs| > 1 || trailing then tail[0] == ',' && (tail + t)[1..] == PrintFields(fs[1..], trailing, w) + t
          else tail[0] == '}' && (tail + t)[1..] == t)
  {
    var tail := FieldsTail(fs, trailing, w);
    assert PrintFields(fs, trailing, w) == fs[0].w0 + (PrintField(fs[0].field) + tail);
    if |fs| > 1 || trailing { RestOf(",", PrintFields(fs[1..], trailing, w), t); } else { RestOf("}", "", t); }
    hide PrintField, PrintFields;
    Regrouped(fs[0].w0, PrintField(fs[0].field), tail, t);
  }

  lemma {:induction false} FieldsRead(fs: seq<Lead>, trailing: bool, w: string, t: string, acc: Fields)
    requires FieldsOk(fs) && AllWs(w)
    ensures ReadFields(PrintFields(fs, trailing, w) + t, acc) == Some((AllSay(fs, acc), t))
    decreases |fs|
  {
    if fs == [] {
      hide ReadField, SkipWs;
      assert PrintFields(fs, trailing, w) + t == w + ("}" + t);
      WsRead(w, "}" + t);
      assert ("}" + t)[1..] == t;
    } else {
      hide ReadField, PrintField, PrintFields, FieldsTail, SkipWs, FieldOk, Says, AllWs;
      var x := fs[0];
      assert FieldOk(x.field) && AllWs(x.w0);
      var tail := FieldsTail(fs, trailing, w);
      var u := PrintField(x.field) + (tail + t);
      PrintFieldsCons(fs, trailing, w, t);
      FieldRead(x.field, tail + t, acc);
      WsRead(x.w0, u);
      if |fs| > 1 || trailing {
        FieldsRead(fs[1..], trailing, w, t, Says(x.field, acc));
      } else {
        assert fs[1..] == [];
      }
    }
  }

  // ---------------------------------------------------------------- entries

  datatype Entry =
    | Tensor(key: string, w1: string, w2: string, fields: seq<Lead>, trailing: bool, w: string, w3: string)
    | Metadata(w1: string, w2: string, body: Body, w3: string)

  ghost predicate EntryOk(x: Entry) {
    && AllWs(x.w1) && AllWs(x.w2) && AllWs(x.w3)
    && match x
       case Tensor(key, _, _, fields, _, w, _) =>
         Plain(key) && key != METADATA && FieldsOk(fields) && AllWs(w) && SpanFits(AllSay(fields, NOTHING))
       case Metadata(_, _, body, _) => BodyOk(body)
  }

  ghost function PrintEntry(x: Entry): string {
    match x
    case Tensor(key, w1, w2, fields, trailing, w, w3) =>
      "\"" + key + "\"" + (w1 + (":" + (w2 + ("{" + (PrintFields(fields, trailing, w) + w3)))))
    case Metadata(w1, w2, body, w3) =>
      "\"" + METADATA + "\"" + (w1 + (":" + (w2 + ("{" + (PrintBody(body) + ("}" + w3))))))
  }

  /** What an entry adds: its tensor, the offset counted from the start of the file. */
  ghost function Adds(x: Entry, dataStart: nat, acc: Tensors): Tensors
    requires EntryOk(x)
  {
    match x
    case Tensor(key, _, _, fields, _, _, _) =>
      acc[key := MetaFor(AllSay(fields, NOTHING), dataStart)]
    case Metadata(_, _, _, _) => acc
  }

  lemma TensorRead(x: Entry, t: string, dataStart: nat, acc: Tensors)
    requires EntryOk(x) && x.Tensor? && Solid(t)
    ensures ReadEntry(PrintEntry(x) + t, dataStart, acc) == Some((Adds(x, dataStart, acc), t))
    ensures PrintEntry(x) != "" && PrintEntry(x)[0] == '"'
  {
    hide ReadString, ReadColon, SkipObject, SkipWs, ReadDescriptor, PrintFields, SpanFits, MetaFor, Plain;
    var v := x.w3 + t;
    var d := "{" + (PrintFields(x.fields, x.trailing, x.w) + v);
    var u := x.w1 + (":" + (x.w2 + d));
    StringRead(x.key, u);
    assert PrintEntry(x) + t == "\"" + x.key + "\"" + u;
    ColonRead(x.w1, x.w2, d);
    DescriptorRead(x, v, dataStart);
    WsRead(x.w3, t);
  }

  lemma DescriptorRead(x: Entry, v: string, dataStart: nat)
    requires EntryOk(x) && x.Tensor?
    ensures ReadDescriptor("{" + (PrintFields(x.fields, x.trailing, x.w) + v), dataStart)
      == Some((MetaFor(AllSay(x.fields, NOTHING), dataStart), v))
  {
    hide ReadFields, PrintFields, Finish, AllSay, SpanFits, MetaFor;
    var d := "{" + (PrintFields(x.fields, x.trailing, x.w) + v);
    assert d[1..] == PrintFields(x.fields, x.trailing, x.w) + v;
    FieldsRead(x.fields, x.trailing, x.w, v, NOTHING);
    FinishIff(AllSay(x.fields, NOTHING), dataStart);
  }

  lemma MetadataRead(x: Entry, t: string, dataStart: nat, acc: Tensors)
    requires EntryOk(x) && x.Metadata? && Solid(t)
    ensures ReadEntry(PrintEntry(x) + t, dataStart, acc) == Some((acc, t))
    ensures PrintEntry(x) != "" && PrintEntry(x)[0] == '"'
  {
    hide ReadString, ReadColon, SkipObject, SkipWs, ReadDescriptor, PrintBody;
    var v := x.w3 + t;
    var d := "{" + (PrintBody(x.body) + ("}" + v));
    var u := x.w1 + (":" + (x.w2 + d));
    assert Plain(METADATA);
    StringRead(METADATA, u);
    assert PrintEntry(x) + t == "\"" + METADATA + "\"" + u;
    ColonRead(x.w1, x.w2, d);
    ObjectSkip(x.body, v);
    WsRead(x.w3, t);
  }

  lemma EntryRead(x: Entry, t: string, dataStart: nat, acc: Tensors)
    requires EntryOk(x) && Solid(t)
    ensures ReadEntry(PrintEntry(x) + t, dataStart, acc) == Some((Adds(x, dataStart, acc), t))
    ensures PrintEntry(x) != "" && PrintEntry(x)[0] == '"'
  {
    hide ReadEntry, PrintEntry;
    if x.Tensor? { TensorRead(x, t, dataStart, acc); } else { MetadataRead(x, t, dataStart, acc); }
  }

  datatype Line = Line(w0: string, entry: Entry)

  ghost predicate LinesOk(es: seq<Line>) {
    forall i :: 0 <= i < |es| ==> AllWs(es[i].w0) && EntryOk(es[i].entry)
  }

  ghost function PrintLines(es: seq<Line>, trailing: bool, w: string): string {
    if es == [] then w + "}"
    else
      var tail := if |es| > 1 || trailing then "," + PrintLines(es[1..], trailing, w) else "}";
      es[0].w0 + (PrintEntry(es[0].entry) + tail)
  }

  ghost function AllAdd(es: seq<Line>, dataStart: nat, acc: Tensors): Tensors
    requires LinesOk(es)
    decreases |es|
  {
    if es == [] then acc else
      assert EntryOk(es[0].entry);
      AllAdd(es[1..], dataStart, Adds(es[0].entry, dataStart, acc))
  }

  ghost function LinesTail(es: seq<Line>, trailing: bool, w: string): string
    requires es != []
  {
    if |es| > 1 || trailing then "," + PrintLines(es[1..], trailing, w) else "}"
  }

  lemma PrintLinesCons(es: seq<Line>, trailing: bool, w: string, t: string)
    requires es != []
    ensures var tail := LinesTail(es, trailing, w);
      && tail != "" && PrintLines(es, trailing, w) + t == es[0].w0 + (PrintEntry(es[0].entry) + (tail + t))
      && (if |es| > 1 || trailing then tail[0] == ',' && (tail + t)[1..] == PrintLines(es[1..], trailing, w) + t else tail[0] == '}')
  {
    var tail := LinesTail(es, trailing, w);
    assert PrintLines(es, trailing, w) == es[0].w0 + (PrintEntry(es[0].entry) + tail);
    if |es| > 1 || trailing { RestOf(",", PrintLines(es[1..], trailing, w), t); }
    hide PrintEntry, PrintLines;
    Regrouped(es[0].w0, PrintEntry(es[0].entry), tail, t);
  }

  lemma NoLinesRead(trailing: bool, w: string, t: string, dataStart: nat, acc: Tensors)
    requires AllWs(w)
    ensures ReadEntries(PrintLines([], trailing, w) + t, dataStart, acc) == Some(AllAdd([], dataStart, acc))
  {
    hide ReadEntry, SkipWs, AllWs;
    assert PrintLines([], trailing, w) + t == w + ("}" + t);
    WsRead(w, "}" + t);
  }

  lemma {:induction false} LinesRead(es: seq<Line>, trailing: bool, w: string, t: string, dataStart: nat, acc: Tensors)
    requires LinesOk(es) && AllWs(w)
    ensures ReadEntries(PrintLines(es, trailing, w) + t, dataStart, acc) == Some(AllAdd(es, dataStart, acc))
    decreases |es|
  {
    if es == [] {
      NoLinesRead(trailing, w, t, dataStart, acc);
    } else {
      LinesHead(es);
      PrintLinesCons(es, trailing, w, t);
      hide ReadEntries, PrintEntry, PrintLines, LinesTail, EntryOk, Adds, AllWs, LinesOk;
      var x, tail := es[0], LinesTail(es, trailing, w);
      LineRead(x, tail + t, dataStart, acc);
      if |es| > 1 || trailing {
        LinesRead(es[1..], trailing, w, t, dataStart, Adds(x.entry, dataStart, acc));
      } else {
        assert es[1..] == [];
      }
    }
  }

  lemma LinesHead(es: seq<Line>)
    requires LinesOk(es) && es != []
    ensures EntryOk(es[0].entry) && AllWs(es[0].w0) && LinesOk(es[1..])
  {
    hide EntryOk, AllWs;
    forall i | 0 <= i < |es[1..]| ensures AllWs(es[1..][i].w0) && EntryOk(es[1..][i].entry) { assert es[1..][i] == es[i + 1]; }
  }

  /** One entry, and how reading goes on. */
  lemma LineRead(x: Line, rest: string, dataStart: nat, acc: Tensors)
    requires AllWs(x.w0) && EntryOk(x.entry) && rest != "" && (rest[0] == ',' || rest[0] == '}')
    ensures ReadEntries(x.w0 + (PrintEntry(x.entry) + rest), dataStart, acc)
      == if rest[0] == ',' then ReadEntries(rest[1..], dataStart, Adds(x.entry, dataStart, acc)) else Some(Adds(x.entry, dataStart, acc))
  {
    hide ReadEntry, PrintEntry, SkipWs, EntryOk, Adds, AllWs;
    EntryRead(x.entry, rest, dataStart, acc);
    WsRead(x.w0, PrintEntry(x.entry) + rest);
  }

  // ---------------------------------------------------------------- files

  /** A header document; whatever follows its closing brace inside the header is ignored. */
  datatype Doc = Doc(w0: string, lines: seq<Line>, trailing: bool, w: string, padding: string)

  ghost predicate DocOk(doc: Doc) {
    AllWs(doc.w0) && LinesOk(doc.lines) && AllWs(doc.w)
  }

  ghost function PrintDoc(doc: Doc): string {
    doc.w0 + ("{" + (PrintLines(doc.lines, doc.trailing, doc.w) + doc.padding))
  }

  function PrintLE(n: nat, k: nat): (r: string)
    ensures |r| == k
  {
    if k == 0 then "" else [(n % 256) as char] + PrintLE(n / 256, k - 1)
  }

  function Pow256(k: nat): nat {
    if k == 0 then 1 else 256 * Pow256(k - 1)
  }

  lemma {:induction false} LERead(n: nat, k: nat, t: string)
    requires n < Pow256(k)
    ensures k <= |PrintLE(n, k) + t| && ReadLE(PrintLE(n, k) + t, k) == n
  {
    if k > 0 {
      assert (PrintLE(n, k) + t)[1..] == PrintLE(n / 256, k - 1) + t;
      LERead(n / 256, k - 1, t);
    }
  }

  /**
   Round trip: a file made of the length, a printed document and any data parses to exactly the
   tensors the document describes, the last of a repeated name winning, each offset shifted by
   eight plus the header length.
   */
  lemma RoundTrip(doc: Doc, data: string)
    requires DocOk(doc) && |PrintDoc(doc)| < Pow256(8)
    ensures var len := |PrintDoc(doc)|;
      Parse(PrintLE(len, 8) + PrintDoc(doc) + data) == Some(AllAdd(doc.lines, 8 + len, map[]))
  {
    hide PrintLE, ReadLE, Pow256, PrintLines, ReadEntries, SkipWs;
    var text := PrintDoc(doc);
    var file := PrintLE(|text|, 8) + text + data;
    assert file == PrintLE(|text|, 8) + (text + data);
    LERead(|text|, 8, text + data);
    assert file[8..8 + |text|] == text;
    var body := PrintLines(doc.lines, doc.trailing, doc.w) + doc.padding;
    WsRead(doc.w0, "{" + body);
    assert ("{" + body)[1..] == body;
    LinesRead(doc.lines, doc.trailing, doc.w, doc.padding, 8 + |text|, map[]);
  }

  // ---------------------------------------------------------------- a plain layout for any list of tensors

  /** A tensor to be stored: its span starts at `start` in the data. */
  datatype Stored = Stored(key: string, dtype: DType, shape: seq<nat>, start: nat)

  ghost predicate StoredOk(ts: seq<Stored>) {
    && (forall i :: 0 <= i < |ts| ==> Plain(ts[i].key) && ts[i].key != METADATA)
    && (forall i, j :: 0 <= i < j < |ts| ==> ts[i].key != ts[j].key)
  }

  function Plainly(vals: seq<nat>): Arr {
    Arr("", seq(|vals|, i requires 0 <= i < |vals| => Elem(Decimal(vals[i]), "", "")), false)
  }

  lemma {:induction false} PlainlyOk(vals: seq<nat>)
    ensures ArrOk(Plainly(vals)) && Values(Plainly(vals).elems) == vals
  {
    var es := Plainly(vals).elems;
    forall i | 0 <= i < |es| ensures ElemOk(es[i]) { DecimalValue(vals[i]); }
    if vals != [] {
      DecimalValue(vals[0]);
      PlainlyOk(vals[1..]);
      assert es[1..] == Plainly(vals[1..]).elems;
    }
  }

  function LineOf(t: Stored): Line {
    Line("", Tensor(t.key, "", "", [
        Lead("", Field("", "", TypeOf(t.dtype), "")),
        Lead("", Field("", "", ShapeOf(Plainly(t.shape)), "")),
        Lead("", Field("", "", OffsetsOf(Plainly(SpanOf(t))), ""))],
      false, "", ""))
  }

  function MetaOf(t: Stored, dataStart: nat): Meta {
    Meta(dataStart + t.start, t.shape, t.dtype)
  }

  function SpanOf(t: Stored): seq<nat> {
    [t.start, t.start + (if t.dtype.Float32? then 4 else 2) * I.Size(t.shape)]
  }

  /** The three fields of the plain layout. */
  lemma FieldsMeaning(t: Stored)
    ensures var fs := LineOf(t).entry.fields;
      FieldsOk(fs) && AllSay(fs, NOTHING) == Fields(Some(t.dtype), Some(t.shape), Some((SpanOf(t)[0], SpanOf(t)[1])))
  {
    PlainlyOk(t.shape);
    PlainlyOk(SpanOf(t));
    var fs := LineOf(t).entry.fields;
    assert FieldsOk(fs);
    hide I.Size, Plainly, Values, ArrOk, Digits, Decimal;
    var f1 := NOTHING.(dtype := Some(t.dtype));
    var f2 := f1.(shape := Some(t.shape));
    assert AllSay(fs, NOTHING) == AllSay(fs[1..], f1);
    assert AllSay(fs[1..], f1) == AllSay(fs[1..][1..], f2);
    assert fs[1..][1..][1..] == [];
  }

  lemma LineMeaning(t: Stored, dataStart: nat, acc: Tensors)
    requires Plain(t.key) && t.key != METADATA
    ensures AllWs(LineOf(t).w0) && EntryOk(LineOf(t).entry)
    ensures Adds(LineOf(t).entry, dataStart, acc) == acc[t.key := MetaOf(t, dataStart)]
  {
    FieldsMeaning(t);
    hide I.Size, Plainly, Values, ArrOk, Digits, Decimal, AllSay, FieldOk;
  }

  /** Every list of tensors with distinct names has a header, and parsing it gives those tensors and no others. */
  lemma {:induction false} StoredMeaning(ts: seq<Stored>, dataStart: nat, acc: Tensors)
    requires StoredOk(ts)
    ensures LinesOk(seq(|ts|, i requires 0 <= i < |ts| => LineOf(ts[i])))
    ensures var all := AllAdd(seq(|ts|, i requires 0 <= i < |ts| => LineOf(ts[i])), dataStart, acc);
      && (forall i :: 0 <= i < |ts| ==> ts[i].key in all && all[ts[i].key] == MetaOf(ts[i], dataStart))
      && (forall k :: k in all && (forall i :: 0 <= i < |ts| ==> ts[i].key != k) ==> k in acc && all[k] == acc[k])
      && (forall k :: k in acc && (forall i :: 0 <= i < |ts| ==> ts[i].key != k) ==> k in all && all[k] == acc[k])
    decreases |ts|
  {
    hide LineOf, EntryOk, Adds;
    var es := seq(|ts|, i requires 0 <= i < |ts| => LineOf(ts[i]));
    forall i | 0 <= i < |es| ensures AllWs(es[i].w0) && EntryOk(es[i].entry) { LineMeaning(ts[i], dataStart, acc); }
    if ts != [] {
      var rest := ts[1..];
      LineMeaning(ts[0], dataStart, acc);
      var next := acc[ts[0].key := MetaOf(ts[0], dataStart)];
      StoredMeaning(rest, dataStart, next);
      assert es[1..] == seq(|rest|, i requires 0 <= i < |rest| => LineOf(rest[i]));
      var all := AllAdd(es, dataStart, acc);
      assert all == AllAdd(es[1..], dataStart, next);
      forall i | 0 <= i < |ts| ensures ts[i].key in all && all[ts[i].key] == MetaOf(ts[i], dataStart) {
        if i > 0 { assert rest[i - 1] == ts[i]; }
      }
      forall k | forall i :: 0 <= i < |ts| ==> ts[i].key != k
        ensures (k in all ==> k in acc && all[k] == acc[k]) && (k in acc ==> k in all && all[k] == acc[k])
      {
        assert forall i :: 0 <= i < |rest| ==> rest[i].key != k by {
          forall i | 0 <= i < |rest| ensures rest[i].key != k { assert rest[i] == ts[i + 1]; }
        }
        assert ts[0].key != k;
      }
    }
  }
}
