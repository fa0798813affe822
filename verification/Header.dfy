/**
 The safetensors header: an 8-byte little-endian length, then one JSON object from tensor names to
 descriptors. The parser is a loop over a position, proved against a function on the remaining text;
 printing a document in any layout the scanner tolerates and parsing it gives its tensors back.
 */
module Header {
  import opened Basics
  import opened JsonScan

  datatype DType = Float32 | BFloat16
  {
    function Size(): nat { if Float32? then 4 else 2 }
    function Name(): string { if Float32? then "F32" else "BF16" }
  }

  /** Where a tensor's bytes start in the file, and what they are. */
  datatype Meta = Meta(offset: nat, shape: seq<nat>, dtype: DType)

  /** Descriptor fields met so far; a repeated field replaces the earlier one. */
  datatype Fields = Fields(dtype: Option<DType>, shape: Option<seq<nat>>, offsets: Option<(nat, nat)>)

  const NOTHING: Fields := Fields(None, None, None)
  const METADATA: string := "__metadata__"

  function Numel(shape: seq<nat>): nat {
    if shape == [] then 1 else Numel(shape[..|shape| - 1]) * shape[|shape| - 1]
  }

  // ---------------------------------------------------------------- the parser as a function

  /** Past the colon after a name. */
  function ReadColon(t: string): (r: Option<string>)
    ensures r.Some? ==> |r.value| < |t|
  {
    var u := SkipWs(t);
    if u == "" || u[0] != ':' then None else Some(SkipWs(u[1..]))
  }

  function ReadValue(field: string, t: string, f: Fields): (r: Option<(Fields, string)>)
    ensures r.Some? ==> |r.value.1| < |t|
  {
    if field == "dtype" then
      var d := ReadString(t);
      if d.None? then None
      else if d.value.0 == "F32" then Some((f.(dtype := Some(Float32)), d.value.1))
      else if d.value.0 == "BF16" then Some((f.(dtype := Some(BFloat16)), d.value.1))
      else None
    else if field == "shape" then
      var a := ReadIntArray(t);
      if a.None? then None else Some((f.(shape := Some(a.value.0)), a.value.1))
    else if field == "data_offsets" then
      var a := ReadIntArray(t);
      if a.None? || |a.value.0| != 2 then None
      else Some((f.(offsets := Some((a.value.0[0], a.value.0[1]))), a.value.1))
    else None
  }

  /** One `"name": value`, with the whitespace after it. */
  function ReadField(t: string, f: Fields): (r: Option<(Fields, string)>)
    ensures r.Some? ==> |r.value.1| < |t|
  {
    var name := ReadString(t);
    if name.None? then None else
      var v := ReadColon(name.value.1);
      if v.None? then None else
        var r := ReadValue(name.value.0, v.value, f);
        if r.None? then None else Some((r.value.0, SkipWs(r.value.1)))
  }

  function ReadFields(t: string, f: Fields): (r: Option<(Fields, string)>)
    ensures r.Some? ==> |r.value.1| < |t|
    decreases |t|
  {
    var u := SkipWs(t);
    if u == "" then None
    else if u[0] == '}' then Some((f, u[1..]))
    else
      var r := ReadField(u, f);
      if r.None? || r.value.1 == "" then None
      else if r.value.1[0] == ',' then ReadFields(r.value.1[1..], r.value.0)
      else if r.value.1[0] == '}' then Some((r.value.0, r.value.1[1..]))
      else None
  }

  /** All three fields present and the span consistent with shape and type; offsets become file offsets. */
  function Finish(f: Fields, dataStart: nat): Option<Meta> {
    if f.dtype.None? || f.shape.None? || f.offsets.None? then None
    else if Numel(f.shape.value) * f.dtype.value.Size() != f.offsets.value.1 - f.offsets.value.0 then None
    else Some(Meta(dataStart + f.offsets.value.0, f.shape.value, f.dtype.value))
  }

  function ReadDescriptor(t: string, dataStart: nat): (r: Option<(Meta, string)>)
    ensures r.Some? ==> |r.value.1| < |t|
  {
    if t == "" || t[0] != '{' then None else
      var f := ReadFields(t[1..], NOTHING);
      if f.None? then None else
        var m := Finish(f.value.0, dataStart);
        if m.None? then None else Some((m.value, f.value.1))
  }

  type Tensors = map<string, Meta>

  /** One entry: `__metadata__` is skipped, anything else must be a descriptor. */
  function ReadEntry(t: string, dataStart: nat, acc: Tensors): (r: Option<(Tensors, string)>)
    ensures r.Some? ==> |r.value.1| < |t|
  {
    var key := ReadString(t);
    if key.None? then None else
      var v := ReadColon(key.value.1);
      if v.None? then None
      else if key.value.0 == METADATA then
        var o := SkipObject(v.value);
        if o.None? then None else Some((acc, SkipWs(o.value)))
      else
        var d := ReadDescriptor(v.value, dataStart);
        if d.None? then None else Some((acc[key.value.0 := d.value.0], SkipWs(d.value.1)))
  }

  function ReadEntries(t: string, dataStart: nat, acc: Tensors): (r: Option<Tensors>)
    decreases |t|
  {
    var u := SkipWs(t);
    if u == "" then None
    else if u[0] == '}' then Some(acc)
    else
      var r := ReadEntry(u, dataStart, acc);
      if r.None? || r.value.1 == "" then None
      else if r.value.1[0] == ',' then ReadEntries(r.value.1[1..], dataStart, r.value.0)
      else if r.value.1[0] == '}' then Some(r.value.0)
      else None
  }

  function ParseText(t: string, dataStart: nat): Option<Tensors> {
    var u := SkipWs(t);
    if u == "" || u[0] != '{' then None else ReadEntries(u[1..], dataStart, map[])
  }

  /** Little-endian value of the first `k` bytes. */
  function ReadLE(s: string, k: nat): nat
    requires k <= |s|
  {
    if k == 0 then 0 else s[0] as int + 256 * ReadLE(s[1..], k - 1)
  }

  function Parse(file: string): Option<Tensors> {
    if |file| < 8 then None
    else
      var len := ReadLE(file, 8);
      if len > |file| - 8 then None else ParseText(file[8..8 + len], 8 + len)
  }

  // ---------------------------------------------------------------- the parser as a loop

  method ScanColon(s: string, p: nat) returns (ok: bool, q: nat)
    requires p <= |s|
    ensures ok == ReadColon(s[p..]).Some?
    ensures ok ==> p < q <= |s| && Rest(s, q, ReadColon(s[p..]).value)
  {
    hide SkipWs;
    q := ScanWs(s, p);
    if q == |s| || s[q] != ':' {
      return false, q;
    }
    Next(s, q);
    q := ScanWs(s, q + 1);
    ok := true;
  }

  method ScanValue(s: string, p: nat, field: string, f: Fields) returns (ok: bool, q: nat, f': Fields)
    requires p <= |s|
    ensures ok == ReadValue(field, s[p..], f).Some?
    ensures ok ==> p < q <= |s| && f' == ReadValue(field, s[p..], f).value.0 && Rest(s, q, ReadValue(field, s[p..], f).value.1)
  {
    hide ReadString, ReadIntArray;
    f' := f;
    if field == "dtype" {
      var d;
      ok, q, d := ScanString(s, p);
      if !ok {
        return;
      }
      if d == "F32" {
        f' := f.(dtype := Some(Float32));
      } else if d == "BF16" {
        f' := f.(dtype := Some(BFloat16));
      } else {
        ok := false;
      }
    } else if field == "shape" {
      var a;
      ok, q, a := ScanIntArray(s, p);
      f' := f.(shape := Some(a));
    } else if field == "data_offsets" {
      var a;
      ok, q, a := ScanIntArray(s, p);
      if !ok {
        return;
      }
      if |a| != 2 {
        return false, q, f;
      }
      f' := f.(offsets := Some((a[0], a[1])));
    } else {
      return false, p, f;
    }
  }

  method ScanField(s: string, p: nat, f: Fields) returns (ok: bool, q: nat, f': Fields)
    requires p <= |s|
    ensures ok == ReadField(s[p..], f).Some?
    ensures ok ==> p < q <= |s| && f' == ReadField(s[p..], f).value.0 && Rest(s, q, ReadField(s[p..], f).value.1)
  {
    hide ReadString, ReadColon, ReadValue, SkipWs;
    f' := f;
    var name;
    ok, q, name := ScanString(s, p);
    if !ok {
      return;
    }
    ok, q := ScanColon(s, q);
    if !ok {
      return;
    }
    ok, q, f' := ScanValue(s, q, name, f);
    if ok {
      q := ScanWs(s, q);
    }
  }

  /** The descriptor loop and its checks. */
  method ScanDescriptor(s: string, p: nat, dataStart: nat) returns (ok: bool, q: nat, meta: Meta)
    requires p <= |s|
    ensures ok == ReadDescriptor(s[p..], dataStart).Some?
    ensures ok ==> p < q <= |s| && Rest(s, q, ReadDescriptor(s[p..], dataStart).value.1)
    ensures ok ==> meta == ReadDescriptor(s[p..], dataStart).value.0
  {
    hide ReadField, SkipWs;
    meta := Meta(0, [], Float32);
    if p == |s| || s[p] != '{' {
      return false, p, meta;
    }
    Next(s, p);
    q := p + 1;
    var f := NOTHING;
    ghost var all := ReadFields(s[p + 1..], NOTHING);
    var more := true;
    while more
      invariant p < q <= |s|
      invariant more ==> ReadFields(s[q..], f) == all
      invariant !more ==> all == Some((f, s[q..]))
      decreases |s| - q, more
    {
      q := ScanWs(s, q);
      if q == |s| {
        return false, q, meta;
      }
      Next(s, q);
      if s[q] == '}' {
        q := q + 1;
        more := false;
      } else {
        ok, q, f := ScanField(s, q, f);
        if !ok {
          return;
        }
        if q == |s| {
          return false, q, meta;
        }
        Next(s, q);
        if s[q] == ',' {
          q := q + 1;
        } else if s[q] == '}' {
          q := q + 1;
          more := false;
        } else {
          return false, q, meta;
        }
      }
    }
    if f.dtype.None? || f.shape.None? || f.offsets.None? {
      return false, q, meta;
    }
    if Numel(f.shape.value) * f.dtype.value.Size() != f.offsets.value.1 - f.offsets.value.0 {
      return false, q, meta;
    }
    ok, meta := true, Meta(dataStart + f.offsets.value.0, f.shape.value, f.dtype.value);
  }

  method ScanEntry(s: string, p: nat, dataStart: nat, acc: Tensors) returns (ok: bool, q: nat, acc': Tensors)
    requires p <= |s|
    ensures ok == ReadEntry(s[p..], dataStart, acc).Some?
    ensures ok ==> p < q <= |s| && Rest(s, q, ReadEntry(s[p..], dataStart, acc).value.1)
    ensures ok ==> acc' == ReadEntry(s[p..], dataStart, acc).value.0
  {
    hide ReadString, ReadColon, ReadDescriptor, SkipObject, SkipWs;
    acc' := acc;
    var key;
    ok, q, key := ScanString(s, p);
    if !ok {
      return;
    }
    ok, q := ScanColon(s, q);
    if !ok {
      return;
    }
    if key == METADATA {
      ok, q := ScanObject(s, q);
    } else {
      var meta;
      ok, q, meta := ScanDescriptor(s, q, dataStart);
      if ok {
        acc' := acc[key := meta];
      }
    }
    if ok {
      q := ScanWs(s, q);
    }
  }

  /** `parse_safetensors_header`. */
  method ParseHeader(file: string) returns (ok: bool, result: Tensors)
    ensures ok == Parse(file).Some? && (ok ==> result == Parse(file).value)
  {
    hide ReadEntry, SkipWs, ReadLE;
    result := map[];
    if |file| < 8 {
      return false, result;
    }
    var headerLen := ReadLE(file, 8);
    if headerLen > |file| - 8 {
      return false, result;
    }
    var s := file[8..8 + headerLen];
    var dataStart := 8 + headerLen;
    assert s[0..] == s;
    var p := ScanWs(s, 0);
    if p == |s| {
      return false, result;
    }
    if s[p] != '{' {
      return false, result;
    }
    Next(s, p);
    p := p + 1;
    ghost var all := ReadEntries(s[p..], dataStart, map[]);
    while true
      invariant p <= |s| && ReadEntries(s[p..], dataStart, result) == all
      decreases |s| - p
    {
      p := ScanWs(s, p);
      if p == |s| {
        return false, result;
      }
      Next(s, p);
      if s[p] == '}' {
        return true, result;
      }
      ok, p, result := ScanEntry(s, p, dataStart, result);
      if !ok {
        return;
      }
      if p == |s| {
        return false, result;
      }
      Next(s, p);
      if s[p] == ',' {
        p := p + 1;
        continue;
      } else if s[p] == '}' {
        return true, result;
      } else {
        return false, result;
      }
    }
  }
}
