/**
 Headers as they are written in a file, spelled out: which characters are skipped, what a descriptor of
 each element type has to say to be accepted, what the metadata entry adds, and one whole file.
 */
module HeaderMeaning {
  import opened Basics
  import opened JsonScan
  import opened Header
  import opened TensorSize
  import opened HeaderPrint
  import I = IndexMaps

  /** Space, tab, line feed and carriage return are skipped, and no other character. */
  lemma WhitespaceIs(c: char, t: string)
    ensures SkipWs([c] + t) == if c in " \t\n\r" then SkipWs(t) else [c] + t
  {
    assert ([c] + t)[1..] == t;
    var four := " \t\n\r";
    assert four[0] == ' ' && four[1] == '\t' && four[2] == '\n' && four[3] == '\r';
    assert c in four <==> c == ' ' || c == '\t' || c == '\n' || c == '\r';
  }

  // ---------------------------------------------------------------- descriptors

  function TypeNamed(name: string): DType {
    if name == "F32" then Float32 else BFloat16
  }

  /** The fields of a descriptor written without whitespace. */
  ghost function Three(name: string, shape: Arr, span: Arr): seq<Lead> {
    [Lead("", Field("", "", TypeOf(TypeNamed(name)), "")),
     Lead("", Field("", "", ShapeOf(shape), "")),
     Lead("", Field("", "", OffsetsOf(span), ""))]
  }

  lemma TypeText(name: string)
    requires name == "F32" || name == "BF16"
    ensures PrintField(Field("", "", TypeOf(TypeNamed(name)), "")) == "\"dtype\":\"" + name + "\""
  {
    assert TypeNamed(name).Name() == name;
  }

  lemma ShapeText(a: Arr)
    ensures PrintField(Field("", "", ShapeOf(a), "")) == "\"shape\":" + PrintArr(a)
  {
    hide PrintArr;
  }

  lemma SpanText(a: Arr)
    ensures PrintField(Field("", "", OffsetsOf(a), "")) == "\"data_offsets\":" + PrintArr(a)
  {
    hide PrintArr;
  }

  lemma LastText(x: Lead)
    requires x.w0 == ""
    ensures PrintFields([x], false, "") == PrintField(x.field) + "}"
  {
    hide PrintField;
  }

  lemma MoreText(x: Lead, fs: seq<Lead>)
    requires x.w0 == "" && fs != []
    ensures PrintFields([x] + fs, false, "") == PrintField(x.field) + ("," + PrintFields(fs, false, ""))
  {
    hide PrintField;
    assert ([x] + fs)[1..] == fs;
  }

  lemma ThreeText(name: string, shape: Arr, span: Arr)
    requires name == "F32" || name == "BF16"
    ensures PrintFields(Three(name, shape, span), false, "") == PrintText(name, shape, span)
  {
    var fs := Three(name, shape, span);
    assert fs == [fs[0]] + ([fs[1]] + [fs[2]]);
    TypeText(name);
    ShapeText(shape);
    SpanText(span);
    hide PrintField, PrintArr, PrintFields;
    LastText(fs[2]);
    MoreText(fs[1], [fs[2]]);
    MoreText(fs[0], [fs[1]] + [fs[2]]);
  }

  /** The text of a descriptor after its opening brace. */
  ghost function PrintText(name: string, shape: Arr, span: Arr): string {
    ("\"dtype\":\"" + name + "\"") + ("," + (("\"shape\":" + PrintArr(shape)) + ("," + (("\"data_offsets\":" + PrintArr(span)) + "}"))))
  }

  lemma ThreeSay(name: string, shape: Arr, span: Arr)
    requires ArrOk(shape) && ArrOk(span) && |span.elems| == 2
    ensures FieldsOk(Three(name, shape, span))
    ensures AllSay(Three(name, shape, span), NOTHING)
      == Fields(Some(TypeNamed(name)), Some(Values(shape.elems)), Some((Values(span.elems)[0], Values(span.elems)[1])))
  {
    var fs := Three(name, shape, span);
    NoWs();
    assert FieldOk(fs[0].field) && FieldOk(fs[1].field) && FieldOk(fs[2].field);
    hide FieldOk, ElemOk, AllWs, Values, AllSay;
    var f1 := NOTHING.(dtype := Some(TypeNamed(name)));
    var f2 := f1.(shape := Some(Values(shape.elems)));
    SayOne(fs[2], [], f2);
    SayOne(fs[1], [fs[2]], f1);
    SayOne(fs[0], [fs[1]] + [fs[2]], NOTHING);
    assert [fs[2]] + [] == [fs[2]] && [fs[0]] + ([fs[1]] + [fs[2]]) == fs;
    SayNone(f2.(offsets := Some((Values(span.elems)[0], Values(span.elems)[1]))));
  }

  lemma SayOne(x: Lead, fs: seq<Lead>, acc: Fields)
    requires AllWs(x.w0) && FieldOk(x.field) && FieldsOk(fs)
    ensures FieldsOk([x] + fs) && AllSay([x] + fs, acc) == AllSay(fs, Says(x.field, acc))
  {
    hide AllWs, FieldOk, Says;
    assert ([x] + fs)[1..] == fs;
  }

  lemma SayNone(acc: Fields)
    ensures FieldsOk([]) && AllSay([], acc) == acc
  {}

  /**
   A descriptor of type `F32` is accepted exactly if its span is four bytes for each index tuple of its shape,
   one of type `BF16` exactly if it is two bytes for each, however the two arrays are laid out.
   */
  lemma DescriptorText(name: string, shape: Arr, span: Arr, rest: string, dataStart: nat, ts: set<seq<nat>>)
    requires name == "F32" || name == "BF16"
    requires ArrOk(shape) && ArrOk(span) && |span.elems| == 2 && TuplesOf(Values(shape.elems), ts)
    ensures var start: int := Values(span.elems)[0]; var end: int := Values(span.elems)[1];
      var r := ReadDescriptor("{" + PrintText(name, shape, span) + rest, dataStart);
      && (r.Some? <==> end - start == (if name == "F32" then 4 * |ts| else 2 * |ts|))
      && (r.Some? ==> r.value == (Meta(dataStart + start, Values(shape.elems), if name == "F32" then Float32 else BFloat16), rest))
  {
    hide *;
    var fs := Three(name, shape, span);
    ThreeSay(name, shape, span);
    ThreeText(name, shape, span);
    NamedType(name);
    ThreeRead(fs, rest, dataStart);
    SpanSays(AllSay(fs, NOTHING), dataStart, ts);
  }

  lemma NamedType(name: string)
    requires name == "F32" || name == "BF16"
    ensures TypeNamed(name) == if name == "F32" then Float32 else BFloat16
  {}

  /** A descriptor without whitespace is what its fields say, if that fits. */
  lemma ThreeRead(fs: seq<Lead>, rest: string, dataStart: nat)
    requires FieldsOk(fs)
    ensures var r, m := ReadDescriptor("{" + PrintFields(fs, false, "") + rest, dataStart), Finish(AllSay(fs, NOTHING), dataStart);
      (r.Some? <==> m.Some?) && (r.Some? ==> r.value == (m.value, rest))
  {
    NoWs();
    hide ReadFields, PrintFields, Finish, AllSay, FieldsOk, AllWs;
    var body := PrintFields(fs, false, "");
    assert ("{" + body + rest)[1..] == body + rest;
    FieldsRead(fs, false, "", rest, NOTHING);
  }

  lemma NoWs()
    ensures AllWs("")
  {}

  lemma SpanSays(f: Fields, dataStart: nat, ts: set<seq<nat>>)
    requires f.dtype.Some? && f.shape.Some? && f.offsets.Some? && TuplesOf(f.shape.value, ts)
    ensures Finish(f, dataStart).Some?
      <==> f.offsets.value.1 - f.offsets.value.0 == if f.dtype.value.Float32? then 4 * |ts| else 2 * |ts|
    ensures Finish(f, dataStart).Some? ==>
      Finish(f, dataStart).value == Meta(dataStart + f.offsets.value.0, f.shape.value, f.dtype.value)
  {
    NumelIsCount(f.shape.value, ts);
    FinishIff(f, dataStart);
  }

  /** Any descriptor: all three fields are there, and the span fits the type and the number of index tuples. */
  lemma DescriptorIff(t: string, dataStart: nat, f: Fields, rest: string, ts: set<seq<nat>>)
    requires t != "" && t[0] == '{' && ReadFields(t[1..], NOTHING) == Some((f, rest))
    requires f.shape.Some? ==> TuplesOf(f.shape.value, ts)
    ensures ReadDescriptor(t, dataStart).Some?
      <==> && f.dtype.Some? && f.shape.Some? && f.offsets.Some?
           && f.offsets.value.1 - f.offsets.value.0 == (match f.dtype.value case Float32 => 4 * |ts| case BFloat16 => 2 * |ts|)
  {
    hide ReadFields;
    if f.dtype.Some? && f.shape.Some? && f.offsets.Some? { SpanSays(f, dataStart, ts); }
  }

  // ---------------------------------------------------------------- entries and a file

  /** The entry `__metadata__` adds nothing, whatever braces and quotes it holds. */
  lemma MetadataText(b: Body, t: string, dataStart: nat, acc: Tensors)
    requires BodyOk(b) && Solid(t)
    ensures ReadEntry("\"__metadata__\":{" + (PrintBody(b) + ("}" + t)), dataStart, acc) == Some((acc, t))
  {
    hide PrintBody, BodyOk, ReadEntry;
    var x := Metadata("", "", b, "");
    MetadataRead(x, t, dataStart, acc);
    assert PrintEntry(x) + t == "\"__metadata__\":{" + (PrintBody(b) + ("}" + t));
  }

  const TWO: Arr := Arr("", [Elem("2", "", "")], false)
  const EIGHT: Arr := Arr("", [Elem("0", "", ""), Elem("8", "", "")], false)

  lemma ArrsText()
    ensures ArrOk(TWO) && ArrOk(EIGHT) && Values(TWO.elems) == [2] && Values(EIGHT.elems) == [0, 8]
    ensures PrintArr(TWO) == "[2]" && PrintArr(EIGHT) == "[0,8]"
  {
    assert ElemOk(TWO.elems[0]) && ElemOk(EIGHT.elems[0]) && ElemOk(EIGHT.elems[1]);
    assert TWO.elems[1..] == [] && EIGHT.elems[1..] == [Elem("8", "", "")] && EIGHT.elems[1..][1..] == [];
    OneDigit('2');
    OneDigit('0');
    OneDigit('8');
  }

  lemma OneDigit(c: char)
    requires IsDigit(c)
    ensures Digits([c]) && ElemOk(Elem([c], "", "")) && ElemValue(Elem([c], "", "")) == c as int - '0' as int
  {
    assert [c][1..] == "";
    assert ValueFrom("", 0 * 10 + Digit(c)) == Digit(c);
  }

  ghost function FileDoc(): Doc {
    Doc("", [Line("", Tensor("a", "", "", Three("F32", TWO, EIGHT), false, "", ""))], false, "", "")
  }

  lemma EntryText(fs: seq<Lead>)
    ensures PrintEntry(Tensor("a", "", "", fs, false, "", "")) == "\"a\":{" + PrintFields(fs, false, "")
  {
    hide PrintFields;
  }

  lemma LineText(x: Entry)
    ensures PrintLines([Line("", x)], false, "") == PrintEntry(x) + "}"
  {
    hide PrintEntry;
  }

  lemma FieldsText()
    requires PrintArr(TWO) == "[2]" && PrintArr(EIGHT) == "[0,8]"
    ensures PrintText("F32", TWO, EIGHT) == ("\"dtype\":\"F32\"" + ("," + ("\"shape\":[2]" + ("," + ("\"data_offsets\":[0,8]" + "}")))))
  {
    hide PrintArr;
    assert "\"dtype\":\"" + "F32" + "\"" == "\"dtype\":\"F32\"";
    assert "\"shape\":" + "[2]" == "\"shape\":[2]";
    assert "\"data_offsets\":" + "[0,8]" == "\"data_offsets\":[0,8]";
  }

  lemma WholeText(f: string)
    ensures "{" + (("\"a\":{" + f) + "}") == "{\"a\":{" + f + "}"
  {
    assert "{" + "\"a\":{" == "{\"a\":{";
    assert "{" + (("\"a\":{" + f) + "}") == (("{" + "\"a\":{") + f) + "}";
  }

  lemma FileDocText()
    ensures DocOk(FileDoc())
    ensures PrintDoc(FileDoc()) == "{\"a\":{" + ("\"dtype\":\"F32\"" + ("," + ("\"shape\":[2]" + ("," + ("\"data_offsets\":[0,8]" + "}"))))) + "}"
    ensures AllAdd(FileDoc().lines, 62, map[]) == map["a" := Meta(62, [2], Float32)]
  {
    ArrsText();
    ThreeSay("F32", TWO, EIGHT);
    ThreeText("F32", TWO, EIGHT);
    FieldsText();
    var x := FileDoc().lines[0].entry;
    EntryText(x.fields);
    LineText(x);
    assert FileDoc().lines == [Line("", x)];
    FileMeaning();
    WholeText(("\"dtype\":\"F32\"" + ("," + ("\"shape\":[2]" + ("," + ("\"data_offsets\":[0,8]" + "}"))))));
    hide PrintArr, Values, ArrOk, PrintFields, AllSay, Three, PrintLines, PrintEntry, PrintText, AllAdd, DocOk;
    assert PrintDoc(FileDoc()) == "{" + (("\"a\":{" + ("\"dtype\":\"F32\"" + ("," + ("\"shape\":[2]" + ("," + ("\"data_offsets\":[0,8]" + "}")))))) + "}");
  }

  lemma FileMeaning()
    requires ArrOk(TWO) && ArrOk(EIGHT) && Values(TWO.elems) == [2] && Values(EIGHT.elems) == [0, 8]
    ensures DocOk(FileDoc()) && AllAdd(FileDoc().lines, 62, map[]) == map["a" := Meta(62, [2], Float32)]
  {
    ThreeSay("F32", TWO, EIGHT);
    hide PrintArr, Values, ArrOk, PrintFields, AllSay, Three;
    var es := FileDoc().lines;
    assert I.Size([2]) == 2 by { assert [2][..0] == []; assert I.Size([]) == 1; }
    assert es[1..] == [];
    assert EntryOk(es[0].entry);
  }

  /** A whole file: eight bytes of length, a header with one tensor, and any data. */
  lemma OneTensorFile(data: string)
    ensures var file := [54 as char, 0 as char, 0 as char, 0 as char, 0 as char, 0 as char, 0 as char, 0 as char]
                        + ("{\"a\":{" + ("\"dtype\":\"F32\"" + ("," + ("\"shape\":[2]" + ("," + ("\"data_offsets\":[0,8]" + "}"))))) + "}") + data;
      Parse(file) == Some(map["a" := Meta(62, [2], Float32)])
  {
    FileDocText();
    var text := PrintDoc(FileDoc());
    assert |text| == 54;
    hide Parse, PrintDoc, AllAdd, FileDoc;
    LengthBytes();
    RoundTrip(FileDoc(), data);
  }

  lemma LengthBytes()
    ensures PrintLE(54, 8) == [54 as char, 0 as char, 0 as char, 0 as char, 0 as char, 0 as char, 0 as char, 0 as char]
    ensures 54 < Pow256(8)
  {
    assert PrintLE(0, 3) == [0 as char, 0 as char, 0 as char];
    assert PrintLE(0, 5) == [0 as char, 0 as char] + PrintLE(0, 3);
    assert PrintLE(0, 7) == [0 as char, 0 as char] + PrintLE(0, 5);
    assert Pow256(0) == 1 && Pow256(2) == 65536 && Pow256(4) >= 65536 && Pow256(6) >= 65536;
  }
}
