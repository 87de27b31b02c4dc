/**
 * The C++ test decoder reads back what the Encoder writes
 * (bindings/pprof.test.cc, "basic structure" and "deduplication").
 *
 * Layer 1: on a list of fields whose numbers fit the one-byte tag, the
 * decode loop is a left fold of the struct's per-field update over the
 * fields' payloads.  Layer 2: each encoded message decodes to a struct whose
 * numbers name, in the encoder's final tables, the strings and records of
 * the value that was encoded.  Layer 3: a whole profile, and the checks the
 * test's `compare` makes.
 */
module CppRoundTrip {
  import opened Bytes
  import opened Wire
  import opened Wrappers
  import opened Pprof
  import opened Interning
  import opened EncodingSpec
  import D = CppDecoder

  // ---------------------------------------------------------------------
  // Layer 1: the decode loop over serialized fields is a fold.

  /** What `get_value` hands to the field update: the varint itself, or the payload. */
  function Payload(f: Field): Bytes
  {
    match f
    case VarintField(_, v) => Varint(v)
    case BytesField(_, p) => p
  }

  /** Every field number fits the single tag byte the encoder writes. */
  predicate SmallIndices(fs: seq<Field>)
  {
    forall i :: 0 <= i < |fs| ==> fs[i].index < 16
  }

  /** The per-field updates applied in order to the fields' payloads. */
  function FoldFields<T>(acc: T, fs: seq<Field>, apply: (T, int, Bytes) -> Result<T, D.DecodeError>): Result<T, D.DecodeError>
    decreases |fs|
  {
    if fs == [] then Ok(acc)
    else
      match apply(acc, fs[0].index, Payload(fs[0]))
      case Err(e) => Err(e)
      case Ok(next) => FoldFields(next, fs[1..], apply)
  }

  /** A varint field read back: its tag, the varint, and the bytes after it. */
  lemma {:induction false} DecodeVarintField<T>(acc: T, i: nat, v: nat, rest: Bytes, apply: (T, int, Bytes) -> Result<T, D.DecodeError>)
    requires i < 16
    ensures var u := apply(acc, i, Varint(v));
      D.DecodeFields(acc, [Tag(i, WireTypeVarInt)] + Varint(v) + rest, apply)
      == if u.Err? then Err(u.error) else D.DecodeFields(u.value, rest, apply)
  {
    var bytes := [Tag(i, WireTypeVarInt)] + Varint(v) + rest;
    D.NewFieldFlagOfTag(i, WireTypeVarInt);
    assert bytes[1..] == Varint(v) + rest;
    D.ValueOfVarint(v, rest);
    var value := D.ValueOf(D.TypeVarInt, bytes[1..]);
    assert value == D.Value(Varint(v), 0);
    assert bytes[1 + |value.value| + value.offset..] == rest;
  }

  /** A length-delimited field read back: its tag, its length, the payload, and the bytes after it. */
  lemma {:induction false} DecodeBytesField<T>(acc: T, i: nat, p: Bytes, rest: Bytes, apply: (T, int, Bytes) -> Result<T, D.DecodeError>)
    requires i < 16
    ensures var u := apply(acc, i, p);
      D.DecodeFields(acc, [Tag(i, WireTypeLengthDelimited)] + Varint(|p|) + p + rest, apply)
      == if u.Err? then Err(u.error) else D.DecodeFields(u.value, rest, apply)
  {
    var bytes := [Tag(i, WireTypeLengthDelimited)] + Varint(|p|) + p + rest;
    D.NewFieldFlagOfTag(i, WireTypeLengthDelimited);
    assert bytes[1..] == Varint(|p|) + p + rest;
    D.ValueOfDelimited(p, rest);
    var value := D.ValueOf(D.TypeLengthDelim, bytes[1..]);
    assert value == D.Value(p, |Varint(|p|)|);
    assert bytes[1 + |value.value| + value.offset..] == rest;
  }

  /** One field read back. */
  lemma {:induction false} DecodeField<T>(acc: T, f: Field, rest: Bytes, apply: (T, int, Bytes) -> Result<T, D.DecodeError>)
    requires f.index < 16
    ensures var u := apply(acc, f.index, Payload(f));
      D.DecodeFields(acc, FieldBytes(f) + rest, apply) == if u.Err? then Err(u.error) else D.DecodeFields(u.value, rest, apply)
  {
    match f
    case VarintField(i, v) => DecodeVarintField(acc, i, v, rest, apply);
    case BytesField(i, p) => DecodeBytesField(acc, i, p, rest, apply);
  }

  /** Decoding serialized fields reads each tag, value and length back exactly. */
  lemma {:induction false} DecodeSerialized<T>(acc: T, fs: seq<Field>, apply: (T, int, Bytes) -> Result<T, D.DecodeError>)
    requires SmallIndices(fs)
    ensures D.DecodeFields(acc, Serialize(fs), apply) == FoldFields(acc, fs, apply)
    decreases |fs|
  {
    if fs != [] {
      DecodeField(acc, fs[0], Serialize(fs[1..]), apply);
      match apply(acc, fs[0].index, Payload(fs[0])) {
        case Err(_) =>
        case Ok(next) => DecodeSerialized(next, fs[1..], apply);
      }
    }
  }

  /** Folding a concatenation: fold the first part, then the second from where it ended. */
  lemma {:induction false} FoldAppend<T>(acc: T, a: seq<Field>, b: seq<Field>, apply: (T, int, Bytes) -> Result<T, D.DecodeError>)
    requires FoldFields(acc, a, apply).Ok?
    ensures FoldFields(acc, a + b, apply) == FoldFields(FoldFields(acc, a, apply).value, b, apply)
    decreases |a|
  {
    if a == [] {
      assert a + b == b;
    } else {
      assert (a + b)[0] == a[0] && (a + b)[1..] == a[1..] + b;
      FoldAppend(apply(acc, a[0].index, Payload(a[0])).value, a[1..], b, apply);
    }
  }

  /** An omitted zero, or one varint field. */
  lemma {:induction false} FoldVarints<T>(acc: T, k: nat, n: nat, apply: (T, int, Bytes) -> Result<T, D.DecodeError>)
    ensures FoldFields(acc, VarintFields(k, n), apply) == if n == 0 then Ok(acc) else apply(acc, k, Varint(n))
  {
    if n != 0 {
      assert VarintFields(k, n)[1..] == [];
    }
  }

  /** An omitted empty payload, or one length-delimited field. */
  lemma {:induction false} FoldDelimited<T>(acc: T, k: nat, p: Bytes, apply: (T, int, Bytes) -> Result<T, D.DecodeError>)
    ensures FoldFields(acc, DelimitedFields(k, p), apply) == if p == [] then Ok(acc) else apply(acc, k, p)
  {
    if p != [] {
      assert DelimitedFields(k, p)[1..] == [];
    }
  }

  /** A varint field appended to fields that fold cleanly. */
  lemma {:induction false} FoldVarintsAfter<T>(acc: T, pre: seq<Field>, k: nat, n: nat, apply: (T, int, Bytes) -> Result<T, D.DecodeError>)
    requires FoldFields(acc, pre, apply).Ok?
    ensures var mid := FoldFields(acc, pre, apply).value;
      FoldFields(acc, pre + VarintFields(k, n), apply) == if n == 0 then Ok(mid) else apply(mid, k, Varint(n))
  {
    FoldAppend(acc, pre, VarintFields(k, n), apply);
    FoldVarints(FoldFields(acc, pre, apply).value, k, n, apply);
  }

  /** A length-delimited field appended to fields that fold cleanly. */
  lemma {:induction false} FoldDelimitedAfter<T>(acc: T, pre: seq<Field>, k: nat, p: Bytes, apply: (T, int, Bytes) -> Result<T, D.DecodeError>)
    requires FoldFields(acc, pre, apply).Ok?
    ensures var mid := FoldFields(acc, pre, apply).value;
      FoldFields(acc, pre + DelimitedFields(k, p), apply) == if p == [] then Ok(mid) else apply(mid, k, p)
  {
    FoldAppend(acc, pre, DelimitedFields(k, p), apply);
    FoldDelimited(FoldFields(acc, pre, apply).value, k, p, apply);
  }

  lemma {:induction false} SmallAppend(a: seq<Field>, b: seq<Field>)
    requires SmallIndices(a) && SmallIndices(b)
    ensures SmallIndices(a + b)
  {
  }

  lemma {:induction false} SmallAll(fs: seq<Field>, k: nat)
    requires AllIndex(fs, k) && k < 16
    ensures SmallIndices(fs)
  {
  }

  /** `get_number` on the encoder's varint gives the number back. */
  lemma {:induction false} VarintValueOf(n: nat)
    ensures D.VarintValue(Varint(n)) == n
  {
    D.ReadVarint(n, []);
    assert Varint(n) + [] == Varint(n);
  }

  // ---------------------------------------------------------------------
  // What a decoded number names in the encoder's final tables T.

  /** String id `id` is `s`. */
  predicate StrAt(T: Tables, id: nat, s: Str)
  {
    id < |T.strings| && T.strings[id] == s
  }

  /** Function id `id` is `f`: its 1-based slot. */
  predicate FunctionAt(T: Tables, id: nat, f: Function)
  {
    1 <= id <= |T.functions| && T.functions[id - 1] == f
  }

  /** Mapping id `id` is `m`: 0 for the default mapping, else its 1-based slot. */
  predicate MappingAt(T: Tables, id: nat, m: Mapping)
  {
    if m == DefaultMapping then id == 0 else 1 <= id <= |T.mappings| && T.mappings[id - 1] == m
  }

  predicate ValueTypeIn(T: Tables, v: ValueType, d: D.ValueType)
  {
    StrAt(T, d.typ, v.typeName) && StrAt(T, d.unit, v.unit)
  }

  predicate LabelIn(T: Tables, l: Label, d: D.Label)
  {
    StrAt(T, d.key, l.key) && StrAt(T, d.str, l.str) && d.num == l.num && StrAt(T, d.numUnit, l.numUnit)
  }

  predicate SampleIn(T: Tables, s: Sample, d: D.Sample)
  {
    && d.values == s.values
    && |d.locationIds| == |s.locations|
    && (forall i :: 0 <= i < |s.locations| ==> LocationAt(T, d.locationIds[i], s.locations[i]))
    && |d.labels| == |s.labels|
    && (forall i :: 0 <= i < |s.labels| ==> LabelIn(T, s.labels[i], d.labels[i]))
  }

  /** The decoded mapping record with id `id`: every field as stored. */
  function MappingRecord(id: nat, m: Mapping): (d: D.Mapping)
    ensures d.id == id && d.memoryStart == m.memoryStart && d.memoryLimit == m.memoryLimit
    ensures d.fileOffset == m.fileOffset && d.filename == m.filename && d.buildId == m.buildId
    ensures d.hasFunctions == m.hasFunctions && d.hasFilenames == m.hasFilenames
    ensures d.hasLineNumbers == m.hasLineNumbers && d.hasInlineFrames == m.hasInlineFrames
  {
    D.Mapping(id, m.memoryStart, m.memoryLimit, m.fileOffset, m.filename, m.buildId,
              m.hasFunctions, m.hasFilenames, m.hasLineNumbers, m.hasInlineFrames)
  }

  predicate LineIn(T: Tables, l: Line, d: D.Line)
  {
    d.lineNumber == l.line && 1 <= d.functionId <= |T.functions| && T.functions[d.functionId - 1] == l.func
  }

  predicate LocationIn(T: Tables, id: nat, loc: Location, d: D.Location)
  {
    && d.id == id && d.address == loc.address && d.isFolded == loc.isFolded
    && MappingAt(T, d.mappingId, loc.mapping)
    && |d.lines| == |loc.lines|
    && (forall i :: 0 <= i < |loc.lines| ==> LineIn(T, loc.lines[i], d.lines[i]))
  }

  predicate FunctionIn(T: Tables, id: nat, f: Function, d: D.Function)
  {
    && d.id == id && StrAt(T, d.name, f.name) && StrAt(T, d.systemName, f.systemName)
    && StrAt(T, d.filename, f.filename) && d.startLine == f.startLine
  }

  lemma {:induction false} LocationAtExtends(t: Tables, u: Tables, id: nat, l: Location)
    requires LocationAt(t, id, l) && Extends(t, u)
    ensures LocationAt(u, id, l)
  {
    if l != DefaultLocation {
      assert u.locations[id - 1] == t.locations[id - 1];
    }
  }

  // ---------------------------------------------------------------------
  // What the round trip needs of the encoded values: nothing that the
  // encoder writes as an empty record, which the decoder cannot see.

  /** A value type with a name or a unit is written as a non-empty record. */
  predicate EncodableValueType(v: ValueType)
  {
    v.typeName != [] || v.unit != []
  }

  /** A label that differs from the all-default label is written as a non-empty record. */
  predicate EncodableLabel(l: Label)
  {
    l != Label([], [], 0, [])
  }

  /** Every line names a function, so every line record carries a function id. */
  predicate LinesEncodable(loc: Location)
  {
    forall j :: 0 <= j < |loc.lines| ==> loc.lines[j].func != DefaultFunction
  }

  predicate EncodableSample(s: Sample)
  {
    && (s.locations != [] || s.values != [] || s.labels != [])
    && (forall i :: 0 <= i < |s.locations| ==> s.locations[i] != DefaultLocation && LinesEncodable(s.locations[i]))
    && (forall i :: 0 <= i < |s.labels| ==> EncodableLabel(s.labels[i]))
  }

  /** A profile whose sample types and samples the test decoder reads back one for one. */
  predicate Encodable(p: ProfileData)
  {
    && (forall i :: 0 <= i < |p.sampleType| ==> EncodableValueType(p.sampleType[i]))
    && (forall i :: 0 <= i < |p.sample| ==> EncodableSample(p.sample[i]))
  }

  // ---------------------------------------------------------------------
  // Layer 2: each encoded message.

  /** The string table starts with "", as a fresh encoder's does, so only "" gets id 0. */
  predicate EmptyFirst(t: Tables)
  {
    |t.strings| >= 1 && t.strings[0] == []
  }

  /** An interned string names itself in any later tables; a non-empty string never gets id 0. */
  lemma {:induction false} InternedStr(t: Tables, s: Str, later: Tables)
    requires Extends(InternString(t, s).tables, later)
    ensures StrAt(later, InternString(t, s).id, s)
    ensures EmptyFirst(t) && s != [] ==> InternString(t, s).id != 0
  {
  }

  lemma {:induction false} ValueTypeDecode(t: Tables, v: ValueType, later: Tables)
    requires Extends(EncValueType(t, v).tables, later)
    ensures var r := D.DecodeFields(D.ValueType(), Serialize(EncValueType(t, v).fields), D.ValueTypeField);
      r.Ok? && ValueTypeIn(later, v, r.value)
    ensures EmptyFirst(t) && EncodableValueType(v) ==> EncValueType(t, v).fields != []
  {
    var ty := InternString(t, v.typeName);
    var un := InternString(ty.tables, v.unit);
    ExtendsTrans(ty.tables, un.tables, later);
    InternedStr(t, v.typeName, later);
    InternedStr(ty.tables, v.unit, later);
    var v1, v2 := VarintFields(1, ty.id), VarintFields(2, un.id);
    var fs := EncValueType(t, v).fields;
    assert fs == v1 + v2;
    SmallAppend(v1, v2);
    DecodeSerialized(D.ValueType(), fs, D.ValueTypeField);
    FoldVarints(D.ValueType(), 1, ty.id, D.ValueTypeField);
    VarintValueOf(ty.id);
    VarintValueOf(un.id);
    FoldVarintsAfter(D.ValueType(), v1, 2, un.id, D.ValueTypeField);
  }

  lemma {:induction false} LabelDecode(t: Tables, l: Label, later: Tables)
    requires Extends(EncLabel(t, l).tables, later)
    ensures var r := D.DecodeFields(D.Label(), Serialize(EncLabel(t, l).fields), D.LabelField);
      r.Ok? && LabelIn(later, l, r.value)
  {
    var key := InternString(t, l.key);
    var str := InternString(key.tables, l.str);
    var unit := InternString(str.tables, l.numUnit);
    ExtendsTrans(str.tables, unit.tables, later);
    ExtendsTrans(key.tables, str.tables, later);
    InternedStr(t, l.key, later);
    InternedStr(key.tables, l.str, later);
    InternedStr(str.tables, l.numUnit, later);
    LabelNumbers(key.id, str.id, l.num, unit.id);
    DecodeSerialized(D.Label(), EncLabel(t, l).fields, D.LabelField);
  }

  /** The four numeric fields of a label record. */
  lemma {:induction false} LabelNumbers(key: nat, str: nat, num: nat, unit: nat)
    ensures var p4 := VarintFields(1, key) + VarintFields(2, str) + VarintFields(3, num) + VarintFields(4, unit);
      && SmallIndices(p4)
      && FoldFields(D.Label(), p4, D.LabelField) == Ok(D.Label(key, str, num, unit))
  {
    var p1 := VarintFields(1, key);
    var p2 := p1 + VarintFields(2, str);
    var p3 := p2 + VarintFields(3, num);
    SmallAppend(p1, VarintFields(2, str));
    SmallAppend(p2, VarintFields(3, num));
    SmallAppend(p3, VarintFields(4, unit));
    VarintValueOf(key);
    VarintValueOf(str);
    VarintValueOf(num);
    VarintValueOf(unit);
    FoldVarints(D.Label(), 1, key, D.LabelField);
    FoldVarintsAfter(D.Label(), p1, 2, str, D.LabelField);
    FoldVarintsAfter(D.Label(), p2, 3, num, D.LabelField);
    FoldVarintsAfter(D.Label(), p3, 4, unit, D.LabelField);
  }

  /** A label other than the all-default one writes at least one field. */
  lemma {:induction false} LabelNonEmpty(t: Tables, l: Label)
    requires EmptyFirst(t) && EncodableLabel(l)
    ensures EncLabel(t, l).fields != []
  {
    var key := InternString(t, l.key);
    var str := InternString(key.tables, l.str);
    var unit := InternString(str.tables, l.numUnit);
    InternedStr(t, l.key, key.tables);
    InternedStr(key.tables, l.str, str.tables);
    InternedStr(str.tables, l.numUnit, unit.tables);
  }

  /** The labels of a sample, appended one record each to an empty label list. */
  lemma {:induction false} LabelsDecode(t: Tables, ls: seq<Label>, later: Tables, acc: D.Sample)
    requires acc.labels == [] && EmptyFirst(t) && Extends(EncLabels(t, ls).tables, later)
    requires forall i :: 0 <= i < |ls| ==> EncodableLabel(ls[i])
    ensures var r := FoldFields(acc, EncLabels(t, ls).fields, D.SampleField);
      && r.Ok? && r.value == acc.(labels := r.value.labels) && |r.value.labels| == |ls|
      && forall i :: 0 <= i < |ls| ==> LabelIn(later, ls[i], r.value.labels[i])
    decreases |ls|
  {
    if ls != [] {
      var front := ls[..|ls| - 1];
      LabelsFrontExtends(t, ls, later);
      assert forall i :: 0 <= i < |front| ==> EncodableLabel(front[i]) by {
        forall i | 0 <= i < |front| ensures EncodableLabel(front[i]) {
          assert front[i] == ls[i];
        }
      }
      LabelsDecode(t, front, later, acc);
      LabelsExtend(acc, FoldFields(acc, EncLabels(t, front).fields, D.SampleField).value, t, ls, later);
    }
  }

  /** The induction step of LabelsDecode: from the labels before the last to all of them. */
  lemma {:induction false} LabelsExtend(acc: D.Sample, mid: D.Sample, t: Tables, ls: seq<Label>, later: Tables)
    requires ls != [] && EmptyFirst(t) && EncodableLabel(ls[|ls| - 1]) && Extends(EncLabels(t, ls).tables, later)
    requires FoldFields(acc, EncLabels(t, ls[..|ls| - 1]).fields, D.SampleField) == Ok(mid)
    requires mid == acc.(labels := mid.labels) && |mid.labels| == |ls| - 1
    requires forall i :: 0 <= i < |ls[..|ls| - 1]| ==> LabelIn(later, ls[..|ls| - 1][i], mid.labels[i])
    ensures var r := FoldFields(acc, EncLabels(t, ls).fields, D.SampleField);
      && r.Ok? && r.value == acc.(labels := r.value.labels) && |r.value.labels| == |ls|
      && forall i :: 0 <= i < |ls| ==> LabelIn(later, ls[i], r.value.labels[i])
  {
    var d := LabelsLast(acc, mid, t, ls, later);
    LabelsSnoc(later, ls, mid.labels, mid.labels + [d]);
  }

  lemma {:induction false} LabelsUnfold(t: Tables, ls: seq<Label>)
    requires ls != []
    ensures var init := EncLabels(t, ls[..|ls| - 1]);
      var last := EncLabel(init.tables, ls[|ls| - 1]);
      EncLabels(t, ls) == Encoded(last.tables, init.fields + DelimitedFields(3, Serialize(last.fields)))
  {
  }

  lemma {:induction false} LabelsFrontExtends(t: Tables, ls: seq<Label>, later: Tables)
    requires ls != [] && Extends(EncLabels(t, ls).tables, later)
    ensures Extends(EncLabels(t, ls[..|ls| - 1]).tables, later)
  {
    var init := EncLabels(t, ls[..|ls| - 1]);
    LabelsUnfold(t, ls);
    ExtendsTrans(init.tables, EncLabel(init.tables, ls[|ls| - 1]).tables, later);
  }

  /** The last label's record, after the records of the labels before it decoded to `mid`. */
  lemma {:induction false} LabelsLast(acc: D.Sample, mid: D.Sample, t: Tables, ls: seq<Label>, later: Tables) returns (d: D.Label)
    requires ls != [] && EmptyFirst(t) && EncodableLabel(ls[|ls| - 1]) && Extends(EncLabels(t, ls).tables, later)
    requires FoldFields(acc, EncLabels(t, ls[..|ls| - 1]).fields, D.SampleField) == Ok(mid)
    ensures FoldFields(acc, EncLabels(t, ls).fields, D.SampleField) == Ok(mid.(labels := mid.labels + [d]))
    ensures LabelIn(later, ls[|ls| - 1], d)
  {
    var init := EncLabels(t, ls[..|ls| - 1]);
    var last := EncLabel(init.tables, ls[|ls| - 1]);
    LabelsUnfold(t, ls);
    d := LabelStep(acc, init.fields, mid, init.tables, ls[|ls| - 1], later);
  }

  /** One more label after fields that decoded cleanly. */
  lemma {:induction false} LabelStep(acc: D.Sample, pre: seq<Field>, mid: D.Sample, t: Tables, l: Label, later: Tables)
    returns (d: D.Label)
    requires FoldFields(acc, pre, D.SampleField) == Ok(mid)
    requires EmptyFirst(t) && EncodableLabel(l) && Extends(EncLabel(t, l).tables, later)
    ensures FoldFields(acc, pre + DelimitedFields(3, Serialize(EncLabel(t, l).fields)), D.SampleField)
         == Ok(mid.(labels := mid.labels + [d]))
    ensures LabelIn(later, l, d)
  {
    var payload := Serialize(EncLabel(t, l).fields);
    LabelDecode(t, l, later);
    LabelNonEmpty(t, l);
    SerializeEmpty(EncLabel(t, l).fields);
    d := AppendLabel(acc, pre, mid, payload);
  }

  /** A record field appended after fields that decoded cleanly, for any payload that decodes. */
  lemma {:induction false} AppendLabel(acc: D.Sample, pre: seq<Field>, mid: D.Sample, p: Bytes) returns (d: D.Label)
    requires FoldFields(acc, pre, D.SampleField) == Ok(mid)
    requires p != [] && D.DecodeFields(D.Label(), p, D.LabelField).Ok?
    ensures d == D.DecodeFields(D.Label(), p, D.LabelField).value
    ensures FoldFields(acc, pre + DelimitedFields(3, p), D.SampleField) == Ok(mid.(labels := mid.labels + [d]))
  {
    FoldDelimitedAfter(acc, pre, 3, p, D.SampleField);
    d := D.DecodeFields(D.Label(), p, D.LabelField).value;
  }

  /** The records of all of `ls` from those of its front and of its last element. */
  lemma {:induction false} LabelsSnoc(later: Tables, ls: seq<Label>, front: seq<D.Label>, all: seq<D.Label>)
    requires ls != [] && |front| == |ls| - 1 && |all| == |ls| && all[..|front|] == front
    requires forall i :: 0 <= i < |front| ==> LabelIn(later, ls[..|ls| - 1][i], front[i])
    requires LabelIn(later, ls[|ls| - 1], all[|ls| - 1])
    ensures forall i :: 0 <= i < |ls| ==> LabelIn(later, ls[i], all[i])
  {
    forall i | 0 <= i < |ls|
      ensures LabelIn(later, ls[i], all[i])
    {
      if i < |ls| - 1 {
        assert ls[i] == ls[..|ls| - 1][i];
        assert all[i] == front[i];
      }
    }
  }

  lemma {:induction false} SampleDecode(t: Tables, s: Sample, later: Tables)
    requires EmptyFirst(t) && Extends(EncSample(t, s).tables, later)
    requires forall i :: 0 <= i < |s.labels| ==> EncodableLabel(s.labels[i])
    ensures var r := D.DecodeFields(D.Sample(), Serialize(EncSample(t, s).fields), D.SampleField);
      r.Ok? && SampleIn(later, s, r.value)
    ensures EncodableSample(s) ==> EncSample(t, s).fields != []
  {
    var ids := InternLocations(t, s.locations);
    var labels := EncLabels(ids.tables, s.labels);
    var f1, f2 := DelimitedFields(1, Packed(ids.ids)), DelimitedFields(2, Packed(s.values));
    var fs := EncSample(t, s).fields;
    assert fs == f1 + f2 + labels.fields;
    SmallAll(labels.fields, 3);
    SmallAppend(f1, f2);
    SmallAppend(f1 + f2, labels.fields);
    DecodeSerialized(D.Sample(), fs, D.SampleField);
    PackedNonEmpty(ids.ids);
    PackedNonEmpty(s.values);
    D.NumbersOfPacked(ids.ids);
    D.NumbersOfPacked(s.values);
    FoldDelimited(D.Sample(), 1, Packed(ids.ids), D.SampleField);
    FoldDelimitedAfter(D.Sample(), f1, 2, Packed(s.values), D.SampleField);
    var mid := D.Sample(ids.ids, s.values, []);
    assert FoldFields(D.Sample(), f1 + f2, D.SampleField) == Ok(mid);
    ExtendsTrans(ids.tables, labels.tables, later);
    LabelsDecode(ids.tables, s.labels, later, mid);
    FoldAppend(D.Sample(), f1 + f2, labels.fields, D.SampleField);
    var d := FoldFields(mid, labels.fields, D.SampleField).value;
    assert d.locationIds == ids.ids && d.values == s.values;
    forall i | 0 <= i < |s.locations|
      ensures LocationAt(later, d.locationIds[i], s.locations[i])
    {
      LocationAtExtends(ids.tables, later, ids.ids[i], s.locations[i]);
    }
  }

  /** The samples, appended one record each to an empty sample list. */
  lemma {:induction false} SamplesDecode(t: Tables, ss: seq<Sample>, later: Tables, acc: D.Profile)
    requires acc.samples == [] && EmptyFirst(t) && Extends(EncSamples(t, ss).tables, later)
    requires forall i :: 0 <= i < |ss| ==> EncodableSample(ss[i])
    ensures var r := FoldFields(acc, EncSamples(t, ss).fields, D.ProfileField);
      && r.Ok? && r.value == acc.(samples := r.value.samples) && |r.value.samples| == |ss|
      && forall i :: 0 <= i < |ss| ==> SampleIn(later, ss[i], r.value.samples[i])
    decreases |ss|
  {
    if ss != [] {
      var init := EncSamples(t, ss[..|ss| - 1]);
      var last := EncSample(init.tables, ss[|ss| - 1]);
      ExtendsTrans(init.tables, last.tables, later);
      SamplesDecode(t, ss[..|ss| - 1], later, acc);
      SampleDecode(init.tables, ss[|ss| - 1], later);
      SerializeEmpty(last.fields);
      FoldDelimitedAfter(acc, init.fields, 2, Serialize(last.fields), D.ProfileField);
      var mid := FoldFields(acc, init.fields, D.ProfileField).value;
      var d := D.DecodeFields(D.Sample(), Serialize(last.fields), D.SampleField).value;
      assert FoldFields(acc, EncSamples(t, ss).fields, D.ProfileField) == Ok(mid.(samples := mid.samples + [d]));
      SamplesSnoc(later, ss, mid.samples, mid.samples + [d]);
    }
  }

  /** The records of all of `ss` from those of its front and of its last element. */
  lemma {:induction false} SamplesSnoc(later: Tables, ss: seq<Sample>, front: seq<D.Sample>, all: seq<D.Sample>)
    requires ss != [] && |front| == |ss| - 1 && |all| == |ss| && all[..|front|] == front
    requires forall i :: 0 <= i < |front| ==> SampleIn(later, ss[..|ss| - 1][i], front[i])
    requires SampleIn(later, ss[|ss| - 1], all[|ss| - 1])
    ensures forall i :: 0 <= i < |ss| ==> SampleIn(later, ss[i], all[i])
  {
    forall i | 0 <= i < |ss|
      ensures SampleIn(later, ss[i], all[i])
    {
      if i < |ss| - 1 {
        assert ss[i] == ss[..|ss| - 1][i];
        assert all[i] == front[i];
      }
    }
  }

  /** One more sample type after fields that decoded cleanly. */
  lemma {:induction false} SampleTypeStep(acc: D.Profile, pre: seq<Field>, mid: D.Profile, t: Tables, v: ValueType, later: Tables)
    returns (d: D.ValueType)
    requires FoldFields(acc, pre, D.ProfileField) == Ok(mid)
    requires EmptyFirst(t) && EncodableValueType(v) && Extends(EncValueType(t, v).tables, later)
    ensures FoldFields(acc, pre + DelimitedFields(1, Serialize(EncValueType(t, v).fields)), D.ProfileField)
         == Ok(mid.(sampleTypes := mid.sampleTypes + [d]))
    ensures ValueTypeIn(later, v, d)
  {
    var payload := Serialize(EncValueType(t, v).fields);
    ValueTypeDecode(t, v, later);
    SerializeEmpty(EncValueType(t, v).fields);
    d := AppendSampleType(acc, pre, mid, payload);
  }

  /** A record field appended after fields that decoded cleanly, for any payload that decodes. */
  lemma {:induction false} AppendSampleType(acc: D.Profile, pre: seq<Field>, mid: D.Profile, p: Bytes) returns (d: D.ValueType)
    requires FoldFields(acc, pre, D.ProfileField) == Ok(mid)
    requires p != [] && D.DecodeFields(D.ValueType(), p, D.ValueTypeField).Ok?
    ensures d == D.DecodeFields(D.ValueType(), p, D.ValueTypeField).value
    ensures FoldFields(acc, pre + DelimitedFields(1, p), D.ProfileField) == Ok(mid.(sampleTypes := mid.sampleTypes + [d]))
  {
    FoldDelimitedAfter(acc, pre, 1, p, D.ProfileField);
    d := D.DecodeFields(D.ValueType(), p, D.ValueTypeField).value;
  }

  lemma {:induction false} SampleTypesDecode(t: Tables, vs: seq<ValueType>, later: Tables, acc: D.Profile)
    requires acc.sampleTypes == [] && EmptyFirst(t) && Extends(EncSampleTypes(t, vs).tables, later)
    requires forall i :: 0 <= i < |vs| ==> EncodableValueType(vs[i])
    ensures var r := FoldFields(acc, EncSampleTypes(t, vs).fields, D.ProfileField);
      && r.Ok? && r.value == acc.(sampleTypes := r.value.sampleTypes) && |r.value.sampleTypes| == |vs|
      && forall i :: 0 <= i < |vs| ==> ValueTypeIn(later, vs[i], r.value.sampleTypes[i])
    decreases |vs|
  {
    if vs != [] {
      var init := EncSampleTypes(t, vs[..|vs| - 1]);
      var last := EncValueType(init.tables, vs[|vs| - 1]);
      SampleTypesUnfold(t, vs);
      ExtendsTrans(init.tables, last.tables, later);
      SampleTypesDecode(t, vs[..|vs| - 1], later, acc);
      var mid := FoldFields(acc, init.fields, D.ProfileField).value;
      var d := SampleTypeStep(acc, init.fields, mid, init.tables, vs[|vs| - 1], later);
      ValueTypesSnoc(later, vs, mid.sampleTypes, mid.sampleTypes + [d]);
    }
  }

  /** The records of all of `vs` from those of its front and of its last element. */
  lemma {:induction false} ValueTypesSnoc(later: Tables, vs: seq<ValueType>, front: seq<D.ValueType>, all: seq<D.ValueType>)
    requires vs != [] && |front| == |vs| - 1 && |all| == |vs| && all[..|front|] == front
    requires forall i :: 0 <= i < |front| ==> ValueTypeIn(later, vs[..|vs| - 1][i], front[i])
    requires ValueTypeIn(later, vs[|vs| - 1], all[|vs| - 1])
    ensures forall i :: 0 <= i < |vs| ==> ValueTypeIn(later, vs[i], all[i])
  {
    forall i | 0 <= i < |vs|
      ensures ValueTypeIn(later, vs[i], all[i])
    {
      if i < |vs| - 1 {
        assert vs[i] == vs[..|vs| - 1][i];
        assert all[i] == front[i];
      }
    }
  }

  lemma {:induction false} SampleTypesUnfold(t: Tables, vs: seq<ValueType>)
    requires vs != []
    ensures var init := EncSampleTypes(t, vs[..|vs| - 1]);
      var last := EncValueType(init.tables, vs[|vs| - 1]);
      EncSampleTypes(t, vs) == Encoded(last.tables, init.fields + DelimitedFields(1, Serialize(last.fields)))
  {
  }

  /** The samples' location ids all name locations whose lines name functions. */
  lemma {:induction false} InternedLocationsEncodable(t: Tables, locs: seq<Location>)
    requires forall i :: 0 <= i < |t.locations| ==> LinesEncodable(t.locations[i])
    requires forall i :: 0 <= i < |locs| ==> LinesEncodable(locs[i])
    ensures forall i :: 0 <= i < |InternLocations(t, locs).tables.locations| ==>
      LinesEncodable(InternLocations(t, locs).tables.locations[i])
    decreases |locs|
  {
    if locs != [] {
      var front := locs[..|locs| - 1];
      var init := InternLocations(t, front);
      assert forall i :: 0 <= i < |front| ==> LinesEncodable(front[i]);
      InternedLocationsEncodable(t, front);
      var last := InternLocation(init.tables, locs[|locs| - 1]);
      assert InternLocations(t, locs).tables == last.tables;
      assert LinesEncodable(locs[|locs| - 1]);
      forall i | 0 <= i < |last.tables.locations|
        ensures LinesEncodable(last.tables.locations[i])
      {
        if locs[|locs| - 1] != DefaultLocation && locs[|locs| - 1] !in init.tables.locations {
          assert last.tables.locations == init.tables.locations + [locs[|locs| - 1]];
          if i < |init.tables.locations| {
            assert last.tables.locations[i] == init.tables.locations[i];
          } else {
            assert last.tables.locations[i] == locs[|locs| - 1];
          }
        } else {
          assert last.tables == init.tables;
          assert LinesEncodable(init.tables.locations[i]);
        }
      }
    }
  }

  lemma {:induction false} SampleLocationsEncodable(t: Tables, ss: seq<Sample>)
    requires forall i :: 0 <= i < |t.locations| ==> LinesEncodable(t.locations[i])
    requires forall i :: 0 <= i < |ss| ==> EncodableSample(ss[i])
    ensures forall i :: 0 <= i < |EncSamples(t, ss).tables.locations| ==>
      LinesEncodable(EncSamples(t, ss).tables.locations[i])
    decreases |ss|
  {
    if ss != [] {
      var front := ss[..|ss| - 1];
      var init := EncSamples(t, front);
      assert forall i :: 0 <= i < |front| ==> EncodableSample(front[i]);
      SampleLocationsEncodable(t, front);
      var s := ss[|ss| - 1];
      assert EncodableSample(s);
      assert forall i :: 0 <= i < |s.locations| ==> LinesEncodable(s.locations[i]);
      var ids := InternLocations(init.tables, s.locations);
      InternedLocationsEncodable(init.tables, s.locations);
      var labels := EncLabels(ids.tables, s.labels);
      assert EncSample(init.tables, s).tables == labels.tables;
      assert EncSamples(t, ss).tables == labels.tables;
      assert labels.tables.locations == ids.tables.locations;
      var u := EncSamples(t, ss).tables;
      assert u.locations == ids.tables.locations;
      forall i | 0 <= i < |u.locations|
        ensures LinesEncodable(u.locations[i])
      {
        assert LinesEncodable(ids.tables.locations[i]);
      }
    }
  }

  // ---------------------------------------------------------------------
  // The mapping records.

  lemma {:induction false} MappingDecode(id: nat, m: Mapping)
    ensures D.DecodeFields(D.Mapping(), Serialize(EncMapping(id, m)), D.MappingField) == Ok(MappingRecord(id, m))
    ensures id != 0 ==> EncMapping(id, m) != []
  {
    var p6 := VarintFields(1, id) + VarintFields(2, m.memoryStart) + VarintFields(3, m.memoryLimit)
      + VarintFields(4, m.fileOffset) + VarintFields(5, m.filename) + VarintFields(6, m.buildId);
    MappingNumbers(id, m);
    MappingFlags(p6, D.Mapping(id, m.memoryStart, m.memoryLimit, m.fileOffset, m.filename, m.buildId), m);
    DecodeSerialized(D.Mapping(), EncMapping(id, m), D.MappingField);
  }

  /** The four flags of a mapping record, after its numeric fields. */
  lemma {:induction false} MappingFlags(pre: seq<Field>, a: D.Mapping, m: Mapping)
    requires SmallIndices(pre) && FoldFields(D.Mapping(), pre, D.MappingField) == Ok(a)
    requires !a.hasFunctions && !a.hasFilenames && !a.hasLineNumbers && !a.hasInlineFrames
    ensures var all := pre + BoolFields(7, m.hasFunctions) + BoolFields(8, m.hasFilenames)
        + BoolFields(9, m.hasLineNumbers) + BoolFields(10, m.hasInlineFrames);
      && SmallIndices(all)
      && FoldFields(D.Mapping(), all, D.MappingField)
         == Ok(a.(hasFunctions := m.hasFunctions, hasFilenames := m.hasFilenames,
                  hasLineNumbers := m.hasLineNumbers, hasInlineFrames := m.hasInlineFrames))
  {
    var p7 := pre + BoolFields(7, m.hasFunctions);
    var p8 := p7 + BoolFields(8, m.hasFilenames);
    var p9 := p8 + BoolFields(9, m.hasLineNumbers);
    FlagsSmall(pre, m);
    FlagAfter(pre, a, 7, m.hasFunctions);
    var a7 := a.(hasFunctions := m.hasFunctions);
    assert FoldFields(D.Mapping(), p7, D.MappingField) == Ok(a7);
    FlagAfter(p7, a7, 8, m.hasFilenames);
    var a8 := a7.(hasFilenames := m.hasFilenames);
    assert FoldFields(D.Mapping(), p8, D.MappingField) == Ok(a8);
    FlagAfter(p8, a8, 9, m.hasLineNumbers);
    var a9 := a8.(hasLineNumbers := m.hasLineNumbers);
    assert FoldFields(D.Mapping(), p9, D.MappingField) == Ok(a9);
    FlagAfter(p9, a9, 10, m.hasInlineFrames);
  }

  lemma {:induction false} FlagsSmall(pre: seq<Field>, m: Mapping)
    requires SmallIndices(pre)
    ensures SmallIndices(pre + BoolFields(7, m.hasFunctions) + BoolFields(8, m.hasFilenames)
      + BoolFields(9, m.hasLineNumbers) + BoolFields(10, m.hasInlineFrames))
  {
    var p7 := pre + BoolFields(7, m.hasFunctions);
    var p8 := p7 + BoolFields(8, m.hasFilenames);
    var p9 := p8 + BoolFields(9, m.hasLineNumbers);
    SmallAppend(pre, BoolFields(7, m.hasFunctions));
    SmallAppend(p7, BoolFields(8, m.hasFilenames));
    SmallAppend(p8, BoolFields(9, m.hasLineNumbers));
    SmallAppend(p9, BoolFields(10, m.hasInlineFrames));
  }

  /** One flag field 7..10 sets its flag and nothing else. */
  lemma {:induction false} FlagAfter(pre: seq<Field>, a: D.Mapping, k: nat, b: bool)
    requires 7 <= k <= 10 && FoldFields(D.Mapping(), pre, D.MappingField) == Ok(a)
    requires !(if k == 7 then a.hasFunctions else if k == 8 then a.hasFilenames
               else if k == 9 then a.hasLineNumbers else a.hasInlineFrames)
    ensures FoldFields(D.Mapping(), pre + BoolFields(k, b), D.MappingField)
      == Ok(if k == 7 then a.(hasFunctions := b) else if k == 8 then a.(hasFilenames := b)
            else if k == 9 then a.(hasLineNumbers := b) else a.(hasInlineFrames := b))
  {
    VarintValueOf(1);
    FoldVarintsAfter(D.Mapping(), pre, k, if b then 1 else 0, D.MappingField);
  }

  /** The six numeric fields of a mapping record. */
  lemma {:induction false} MappingNumbers(id: nat, m: Mapping)
    ensures var p6 := VarintFields(1, id) + VarintFields(2, m.memoryStart) + VarintFields(3, m.memoryLimit)
        + VarintFields(4, m.fileOffset) + VarintFields(5, m.filename) + VarintFields(6, m.buildId);
      && SmallIndices(p6) && (id != 0 ==> p6 != [])
      && FoldFields(D.Mapping(), p6, D.MappingField)
         == Ok(D.Mapping(id, m.memoryStart, m.memoryLimit, m.fileOffset, m.filename, m.buildId))
  {
    var p1 := VarintFields(1, id);
    var p2 := p1 + VarintFields(2, m.memoryStart);
    var p3 := p2 + VarintFields(3, m.memoryLimit);
    var p4 := p3 + VarintFields(4, m.fileOffset);
    var p5 := p4 + VarintFields(5, m.filename);
    var p6 := p5 + VarintFields(6, m.buildId);
    NumbersSmall(id, m);
    VarintValueOf(id);
    VarintValueOf(m.memoryStart);
    VarintValueOf(m.memoryLimit);
    VarintValueOf(m.fileOffset);
    VarintValueOf(m.filename);
    VarintValueOf(m.buildId);
    var a0 := D.Mapping();
    FoldVarints(a0, 1, id, D.MappingField);
    FoldVarintsAfter(a0, p1, 2, m.memoryStart, D.MappingField);
    FoldVarintsAfter(a0, p2, 3, m.memoryLimit, D.MappingField);
    FoldVarintsAfter(a0, p3, 4, m.fileOffset, D.MappingField);
    FoldVarintsAfter(a0, p4, 5, m.filename, D.MappingField);
    FoldVarintsAfter(a0, p5, 6, m.buildId, D.MappingField);
  }

  lemma {:induction false} NumbersSmall(id: nat, m: Mapping)
    ensures var p6 := VarintFields(1, id) + VarintFields(2, m.memoryStart) + VarintFields(3, m.memoryLimit)
        + VarintFields(4, m.fileOffset) + VarintFields(5, m.filename) + VarintFields(6, m.buildId);
      SmallIndices(p6) && (id != 0 ==> p6 != [])
  {
    var p1 := VarintFields(1, id);
    var p2 := p1 + VarintFields(2, m.memoryStart);
    var p3 := p2 + VarintFields(3, m.memoryLimit);
    var p4 := p3 + VarintFields(4, m.fileOffset);
    var p5 := p4 + VarintFields(5, m.filename);
    SmallAppend(p1, VarintFields(2, m.memoryStart));
    SmallAppend(p2, VarintFields(3, m.memoryLimit));
    SmallAppend(p3, VarintFields(4, m.fileOffset));
    SmallAppend(p4, VarintFields(5, m.filename));
    SmallAppend(p5, VarintFields(6, m.buildId));
  }

  /** The mapping table, one record per entry with ids 1, 2, ... */
  lemma {:induction false} MappingTableDecode(ms: seq<Mapping>, acc: D.Profile)
    requires acc.mappings == []
    ensures var r := FoldFields(acc, EncMappingTable(ms), D.ProfileField);
      && r.Ok? && r.value == acc.(mappings := r.value.mappings) && |r.value.mappings| == |ms|
      && forall i :: 0 <= i < |ms| ==> r.value.mappings[i] == MappingRecord(i + 1, ms[i])
    decreases |ms|
  {
    if ms != [] {
      var init := EncMappingTable(ms[..|ms| - 1]);
      MappingTableDecode(ms[..|ms| - 1], acc);
      var mid := FoldFields(acc, init, D.ProfileField).value;
      var payload := Serialize(EncMapping(|ms|, ms[|ms| - 1]));
      assert payload != [] by {
        MappingDecode(|ms|, ms[|ms| - 1]);
        SerializeEmpty(EncMapping(|ms|, ms[|ms| - 1]));
      }
      assert FoldFields(acc, EncMappingTable(ms), D.ProfileField)
          == Ok(mid.(mappings := mid.mappings + [MappingRecord(|ms|, ms[|ms| - 1])])) by {
        MappingDecode(|ms|, ms[|ms| - 1]);
        FoldDelimitedAfter(acc, init, 3, payload, D.ProfileField);
      }
      MappingsSnoc(ms, mid.mappings, mid.mappings + [MappingRecord(|ms|, ms[|ms| - 1])]);
    }
  }

  /** The records of all of `ms` from those of its front and of its last element. */
  lemma {:induction false} MappingsSnoc(ms: seq<Mapping>, front: seq<D.Mapping>, all: seq<D.Mapping>)
    requires ms != [] && |front| == |ms| - 1 && |all| == |ms| && all[..|front|] == front
    requires forall i :: 0 <= i < |front| ==> front[i] == MappingRecord(i + 1, ms[..|ms| - 1][i])
    requires all[|ms| - 1] == MappingRecord(|ms|, ms[|ms| - 1])
    ensures forall i :: 0 <= i < |ms| ==> all[i] == MappingRecord(i + 1, ms[i])
  {
    forall i | 0 <= i < |ms|
      ensures all[i] == MappingRecord(i + 1, ms[i])
    {
      if i < |ms| - 1 {
        assert ms[i] == ms[..|ms| - 1][i];
        assert all[i] == front[i];
      }
    }
  }

  // ---------------------------------------------------------------------
  // The location records and their lines.

  /** An interned non-default function names itself, 1-based, in any later tables. */
  lemma {:induction false} InternedFunction(t: Tables, f: Function, later: Tables)
    requires f != DefaultFunction && Extends(InternFunction(t, f).tables, later)
    ensures var id := InternFunction(t, f).id;
      1 <= id <= |later.functions| && later.functions[id - 1] == f
  {
  }

  /** An interned mapping names itself in any later tables; the default mapping has id 0. */
  lemma {:induction false} InternedMapping(t: Tables, m: Mapping, later: Tables)
    requires Extends(InternMapping(t, m).tables, later)
    ensures MappingAt(later, InternMapping(t, m).id, m)
  {
  }

  /** The two numeric fields of a line record. */
  lemma {:induction false} LineNumbers(functionId: nat, line: nat)
    ensures var p2 := VarintFields(1, functionId) + VarintFields(2, line);
      && SmallIndices(p2) && (functionId != 0 ==> p2 != [])
      && FoldFields(D.Line(), p2, D.LineField) == Ok(D.Line(functionId, line))
  {
    var p1 := VarintFields(1, functionId);
    SmallAppend(p1, VarintFields(2, line));
    VarintValueOf(functionId);
    VarintValueOf(line);
    FoldVarints(D.Line(), 1, functionId, D.LineField);
    FoldVarintsAfter(D.Line(), p1, 2, line, D.LineField);
  }

  lemma {:induction false} LineDecode(t: Tables, l: Line, later: Tables)
    requires l.func != DefaultFunction && Extends(EncLine(t, l).tables, later)
    ensures var r := D.DecodeFields(D.Line(), Serialize(EncLine(t, l).fields), D.LineField);
      r.Ok? && LineIn(later, l, r.value)
    ensures EncLine(t, l).fields != []
  {
    var f := InternFunction(t, l.func);
    InternedFunction(t, l.func, later);
    LineNumbers(f.id, l.line);
    DecodeSerialized(D.Line(), EncLine(t, l).fields, D.LineField);
  }

  lemma {:induction false} LinesUnfold(t: Tables, ls: seq<Line>)
    requires ls != []
    ensures var init := EncLines(t, ls[..|ls| - 1]);
      var last := EncLine(init.tables, ls[|ls| - 1]);
      EncLines(t, ls) == Encoded(last.tables, init.fields + DelimitedFields(4, Serialize(last.fields)))
  {
  }

  /** One more line after fields of a location record that decoded cleanly. */
  lemma {:induction false} LineStep(acc: D.Location, pre: seq<Field>, mid: D.Location, t: Tables, l: Line, later: Tables)
    returns (d: D.Line)
    requires FoldFields(acc, pre, D.LocationField) == Ok(mid)
    requires l.func != DefaultFunction && Extends(EncLine(t, l).tables, later)
    ensures FoldFields(acc, pre + DelimitedFields(4, Serialize(EncLine(t, l).fields)), D.LocationField)
         == Ok(mid.(lines := mid.lines + [d]))
    ensures LineIn(later, l, d)
  {
    var payload := Serialize(EncLine(t, l).fields);
    LineDecode(t, l, later);
    SerializeEmpty(EncLine(t, l).fields);
    d := AppendLine(acc, pre, mid, payload);
  }

  /** A record field appended after fields that decoded cleanly, for any payload that decodes. */
  lemma {:induction false} AppendLine(acc: D.Location, pre: seq<Field>, mid: D.Location, p: Bytes) returns (d: D.Line)
    requires FoldFields(acc, pre, D.LocationField) == Ok(mid)
    requires p != [] && D.DecodeFields(D.Line(), p, D.LineField).Ok?
    ensures d == D.DecodeFields(D.Line(), p, D.LineField).value
    ensures FoldFields(acc, pre + DelimitedFields(4, p), D.LocationField) == Ok(mid.(lines := mid.lines + [d]))
  {
    FoldDelimitedAfter(acc, pre, 4, p, D.LocationField);
    d := D.DecodeFields(D.Line(), p, D.LineField).value;
  }

  /** The records of all of `ls` from those of its front and of its last element. */
  lemma {:induction false} LinesSnoc(later: Tables, ls: seq<Line>, front: seq<D.Line>, all: seq<D.Line>)
    requires ls != [] && |front| == |ls| - 1 && |all| == |ls| && all[..|front|] == front
    requires forall i :: 0 <= i < |front| ==> LineIn(later, ls[..|ls| - 1][i], front[i])
    requires LineIn(later, ls[|ls| - 1], all[|ls| - 1])
    ensures forall i :: 0 <= i < |ls| ==> LineIn(later, ls[i], all[i])
  {
    forall i | 0 <= i < |ls|
      ensures LineIn(later, ls[i], all[i])
    {
      if i < |ls| - 1 {
        assert ls[i] == ls[..|ls| - 1][i];
        assert all[i] == front[i];
      }
    }
  }

  /** The lines of a location, appended one record each to an empty list. */
  lemma {:induction false} LinesDecode(t: Tables, ls: seq<Line>, later: Tables, acc: D.Location)
    requires acc.lines == [] && Extends(EncLines(t, ls).tables, later)
    requires forall j :: 0 <= j < |ls| ==> ls[j].func != DefaultFunction
    ensures var r := FoldFields(acc, EncLines(t, ls).fields, D.LocationField);
      && r.Ok? && r.value == acc.(lines := r.value.lines) && |r.value.lines| == |ls|
      && forall i :: 0 <= i < |ls| ==> LineIn(later, ls[i], r.value.lines[i])
    decreases |ls|
  {
    if ls != [] {
      var front := ls[..|ls| - 1];
      var init := EncLines(t, front);
      var last := EncLine(init.tables, ls[|ls| - 1]);
      LinesUnfold(t, ls);
      ExtendsTrans(init.tables, last.tables, later);
      assert forall j :: 0 <= j < |front| ==> front[j].func != DefaultFunction;
      LinesDecode(t, front, later, acc);
      var mid := FoldFields(acc, init.fields, D.LocationField).value;
      var d := LineStep(acc, init.fields, mid, init.tables, ls[|ls| - 1], later);
      LinesSnoc(later, ls, mid.lines, mid.lines + [d]);
    }
  }

  /** The three numeric fields that open a location record. */
  lemma {:induction false} LocationNumbers(id: nat, mappingId: nat, address: nat)
    ensures var p3 := VarintFields(1, id) + VarintFields(2, mappingId) + VarintFields(3, address);
      && SmallIndices(p3) && (id != 0 ==> p3 != [])
      && FoldFields(D.Location(), p3, D.LocationField) == Ok(D.Location(id, mappingId, address))
  {
    var p1 := VarintFields(1, id);
    var p2 := p1 + VarintFields(2, mappingId);
    SmallAppend(p1, VarintFields(2, mappingId));
    SmallAppend(p2, VarintFields(3, address));
    VarintValueOf(id);
    VarintValueOf(mappingId);
    VarintValueOf(address);
    FoldVarints(D.Location(), 1, id, D.LocationField);
    FoldVarintsAfter(D.Location(), p1, 2, mappingId, D.LocationField);
    FoldVarintsAfter(D.Location(), p2, 3, address, D.LocationField);
  }

  lemma {:induction false} LocationDecode(t: Tables, id: nat, loc: Location, later: Tables)
    requires id != 0 && LinesEncodable(loc) && Extends(EncLocation(t, id, loc).tables, later)
    ensures var r := D.DecodeFields(D.Location(), Serialize(EncLocation(t, id, loc).fields), D.LocationField);
      r.Ok? && LocationIn(later, id, loc, r.value)
    ensures EncLocation(t, id, loc).fields != []
  {
    var m := InternMapping(t, loc.mapping);
    var lines := EncLines(m.tables, loc.lines);
    ExtendsTrans(m.tables, lines.tables, later);
    InternedMapping(t, loc.mapping, later);
    var p3 := VarintFields(1, id) + VarintFields(2, m.id) + VarintFields(3, loc.address);
    var a3 := D.Location(id, m.id, loc.address);
    LocationNumbers(id, m.id, loc.address);
    LinesDecode(m.tables, loc.lines, later, a3);
    LocationTail(p3, a3, lines.fields, loc.isFolded);
    assert EncLocation(t, id, loc).fields == p3 + lines.fields + BoolFields(5, loc.isFolded);
    DecodeSerialized(D.Location(), EncLocation(t, id, loc).fields, D.LocationField);
  }

  /** The lines and the folded flag after the opening numbers of a location record. */
  lemma {:induction false} LocationTail(pre: seq<Field>, a: D.Location, lines: seq<Field>, isFolded: bool)
    requires SmallIndices(pre) && AllIndex(lines, 4)
    requires FoldFields(D.Location(), pre, D.LocationField) == Ok(a)
    requires FoldFields(a, lines, D.LocationField).Ok? && !FoldFields(a, lines, D.LocationField).value.isFolded
    ensures SmallIndices(pre + lines + BoolFields(5, isFolded))
    ensures FoldFields(D.Location(), pre + lines + BoolFields(5, isFolded), D.LocationField)
      == Ok(FoldFields(a, lines, D.LocationField).value.(isFolded := isFolded))
  {
    FoldAppend(D.Location(), pre, lines, D.LocationField);
    VarintValueOf(1);
    FoldVarintsAfter(D.Location(), pre + lines, 5, if isFolded then 1 else 0, D.LocationField);
    SmallAll(lines, 4);
    SmallAppend(pre, lines);
    SmallAppend(pre + lines, BoolFields(5, isFolded));
  }

  lemma {:induction false} LocationTableUnfold(t: Tables, locs: seq<Location>)
    requires locs != []
    ensures var init := EncLocationTable(t, locs[..|locs| - 1]);
      var last := EncLocation(init.tables, |locs|, locs[|locs| - 1]);
      EncLocationTable(t, locs) == Encoded(last.tables, init.fields + DelimitedFields(4, Serialize(last.fields)))
  {
  }

  /** One more location record after fields that decoded cleanly. */
  lemma {:induction false} LocationStep(acc: D.Profile, pre: seq<Field>, mid: D.Profile, t: Tables, id: nat, loc: Location, later: Tables)
    returns (d: D.Location)
    requires FoldFields(acc, pre, D.ProfileField) == Ok(mid)
    requires id != 0 && LinesEncodable(loc) && Extends(EncLocation(t, id, loc).tables, later)
    ensures FoldFields(acc, pre + DelimitedFields(4, Serialize(EncLocation(t, id, loc).fields)), D.ProfileField)
         == Ok(mid.(locations := mid.locations + [d]))
    ensures LocationIn(later, id, loc, d)
  {
    var payload := Serialize(EncLocation(t, id, loc).fields);
    LocationDecode(t, id, loc, later);
    SerializeEmpty(EncLocation(t, id, loc).fields);
    d := AppendLocation(acc, pre, mid, payload);
  }

  /** A record field appended after fields that decoded cleanly, for any payload that decodes. */
  lemma {:induction false} AppendLocation(acc: D.Profile, pre: seq<Field>, mid: D.Profile, p: Bytes) returns (d: D.Location)
    requires FoldFields(acc, pre, D.ProfileField) == Ok(mid)
    requires p != [] && D.DecodeFields(D.Location(), p, D.LocationField).Ok?
    ensures d == D.DecodeFields(D.Location(), p, D.LocationField).value
    ensures FoldFields(acc, pre + DelimitedFields(4, p), D.ProfileField) == Ok(mid.(locations := mid.locations + [d]))
  {
    FoldDelimitedAfter(acc, pre, 4, p, D.ProfileField);
    d := D.DecodeFields(D.Location(), p, D.LocationField).value;
  }

  /** The records of all of `locs` from those of its front and of its last element. */
  lemma {:induction false} LocationsSnoc(later: Tables, locs: seq<Location>, front: seq<D.Location>, all: seq<D.Location>)
    requires locs != [] && |front| == |locs| - 1 && |all| == |locs| && all[..|front|] == front
    requires forall i :: 0 <= i < |front| ==> LocationIn(later, i + 1, locs[..|locs| - 1][i], front[i])
    requires LocationIn(later, |locs|, locs[|locs| - 1], all[|locs| - 1])
    ensures forall i :: 0 <= i < |locs| ==> LocationIn(later, i + 1, locs[i], all[i])
  {
    forall i | 0 <= i < |locs|
      ensures LocationIn(later, i + 1, locs[i], all[i])
    {
      if i < |locs| - 1 {
        assert locs[i] == locs[..|locs| - 1][i];
        assert all[i] == front[i];
      }
    }
  }

  /** The location table, one record per entry with ids 1, 2, ... */
  lemma {:induction false} LocationTableDecode(t: Tables, locs: seq<Location>, later: Tables, acc: D.Profile)
    requires acc.locations == [] && Extends(EncLocationTable(t, locs).tables, later)
    requires forall i :: 0 <= i < |locs| ==> LinesEncodable(locs[i])
    ensures var r := FoldFields(acc, EncLocationTable(t, locs).fields, D.ProfileField);
      && r.Ok? && r.value == acc.(locations := r.value.locations) && |r.value.locations| == |locs|
      && forall i :: 0 <= i < |locs| ==> LocationIn(later, i + 1, locs[i], r.value.locations[i])
    decreases |locs|
  {
    if locs != [] {
      var front := locs[..|locs| - 1];
      var init := EncLocationTable(t, front);
      var last := EncLocation(init.tables, |locs|, locs[|locs| - 1]);
      LocationTableUnfold(t, locs);
      ExtendsTrans(init.tables, last.tables, later);
      assert forall i :: 0 <= i < |front| ==> LinesEncodable(front[i]);
      LocationTableDecode(t, front, later, acc);
      var mid := FoldFields(acc, init.fields, D.ProfileField).value;
      var d := LocationStep(acc, init.fields, mid, init.tables, |locs|, locs[|locs| - 1], later);
      LocationsSnoc(later, locs, mid.locations, mid.locations + [d]);
    }
  }

  // ---------------------------------------------------------------------
  // The function records.

  lemma {:induction false} FunctionDecode(t: Tables, id: nat, f: Function, later: Tables)
    requires Extends(EncFunction(t, id, f).tables, later)
    ensures var r := D.DecodeFields(D.Function(), Serialize(EncFunction(t, id, f).fields), D.FunctionField);
      r.Ok? && FunctionIn(later, id, f, r.value)
    ensures id != 0 ==> EncFunction(t, id, f).fields != []
  {
    var name := InternString(t, f.name);
    var systemName := InternString(name.tables, f.systemName);
    var filename := InternString(systemName.tables, f.filename);
    ExtendsTrans(systemName.tables, filename.tables, later);
    ExtendsTrans(name.tables, systemName.tables, later);
    InternedStr(t, f.name, later);
    InternedStr(name.tables, f.systemName, later);
    InternedStr(systemName.tables, f.filename, later);
    var fs := EncFunction(t, id, f).fields;
    FunctionNumbers(id, name.id, systemName.id, filename.id, f.startLine);
    DecodeSerialized(D.Function(), fs, D.FunctionField);
  }

  /** The five numeric fields of a function record. */
  lemma {:induction false} FunctionNumbers(id: nat, name: nat, systemName: nat, filename: nat, startLine: nat)
    ensures var p5 := VarintFields(1, id) + VarintFields(2, name) + VarintFields(3, systemName)
        + VarintFields(4, filename) + VarintFields(5, startLine);
      && SmallIndices(p5) && (id != 0 ==> p5 != [])
      && FoldFields(D.Function(), p5, D.FunctionField) == Ok(D.Function(id, name, systemName, filename, startLine))
  {
    var p1 := VarintFields(1, id);
    var p2 := p1 + VarintFields(2, name);
    var p3 := p2 + VarintFields(3, systemName);
    var p4 := p3 + VarintFields(4, filename);
    SmallAppend(p1, VarintFields(2, name));
    SmallAppend(p2, VarintFields(3, systemName));
    SmallAppend(p3, VarintFields(4, filename));
    SmallAppend(p4, VarintFields(5, startLine));
    VarintValueOf(id);
    VarintValueOf(name);
    VarintValueOf(systemName);
    VarintValueOf(filename);
    VarintValueOf(startLine);
    var a0 := D.Function();
    FoldVarints(a0, 1, id, D.FunctionField);
    FoldVarintsAfter(a0, p1, 2, name, D.FunctionField);
    FoldVarintsAfter(a0, p2, 3, systemName, D.FunctionField);
    FoldVarintsAfter(a0, p3, 4, filename, D.FunctionField);
    FoldVarintsAfter(a0, p4, 5, startLine, D.FunctionField);
  }

  lemma {:induction false} FunctionTableUnfold(t: Tables, fs: seq<Function>)
    requires fs != []
    ensures var init := EncFunctionTable(t, fs[..|fs| - 1]);
      var last := EncFunction(init.tables, |fs|, fs[|fs| - 1]);
      EncFunctionTable(t, fs) == Encoded(last.tables, init.fields + DelimitedFields(5, Serialize(last.fields)))
  {
  }

  /** One more function record after fields that decoded cleanly. */
  lemma {:induction false} FunctionStep(acc: D.Profile, pre: seq<Field>, mid: D.Profile, t: Tables, id: nat, f: Function, later: Tables)
    returns (d: D.Function)
    requires FoldFields(acc, pre, D.ProfileField) == Ok(mid)
    requires id != 0 && Extends(EncFunction(t, id, f).tables, later)
    ensures FoldFields(acc, pre + DelimitedFields(5, Serialize(EncFunction(t, id, f).fields)), D.ProfileField)
         == Ok(mid.(functions := mid.functions + [d]))
    ensures FunctionIn(later, id, f, d)
  {
    var payload := Serialize(EncFunction(t, id, f).fields);
    FunctionDecode(t, id, f, later);
    SerializeEmpty(EncFunction(t, id, f).fields);
    d := AppendFunction(acc, pre, mid, payload);
  }

  /** A record field appended after fields that decoded cleanly, for any payload that decodes. */
  lemma {:induction false} AppendFunction(acc: D.Profile, pre: seq<Field>, mid: D.Profile, p: Bytes) returns (d: D.Function)
    requires FoldFields(acc, pre, D.ProfileField) == Ok(mid)
    requires p != [] && D.DecodeFields(D.Function(), p, D.FunctionField).Ok?
    ensures d == D.DecodeFields(D.Function(), p, D.FunctionField).value
    ensures FoldFields(acc, pre + DelimitedFields(5, p), D.ProfileField) == Ok(mid.(functions := mid.functions + [d]))
  {
    FoldDelimitedAfter(acc, pre, 5, p, D.ProfileField);
    d := D.DecodeFields(D.Function(), p, D.FunctionField).value;
  }

  /** The function table, one record per entry with ids 1, 2, ... */
  lemma {:induction false} FunctionTableDecode(t: Tables, fs: seq<Function>, later: Tables, acc: D.Profile)
    requires acc.functions == [] && Extends(EncFunctionTable(t, fs).tables, later)
    ensures var r := FoldFields(acc, EncFunctionTable(t, fs).fields, D.ProfileField);
      && r.Ok? && r.value == acc.(functions := r.value.functions) && |r.value.functions| == |fs|
      && forall i :: 0 <= i < |fs| ==> FunctionIn(later, i + 1, fs[i], r.value.functions[i])
    decreases |fs|
  {
    if fs != [] {
      var init := EncFunctionTable(t, fs[..|fs| - 1]);
      var last := EncFunction(init.tables, |fs|, fs[|fs| - 1]);
      FunctionTableUnfold(t, fs);
      ExtendsTrans(init.tables, last.tables, later);
      FunctionTableDecode(t, fs[..|fs| - 1], later, acc);
      var mid := FoldFields(acc, init.fields, D.ProfileField).value;
      var d := FunctionStep(acc, init.fields, mid, init.tables, |fs|, fs[|fs| - 1], later);
      FunctionsSnoc(later, fs, mid.functions, mid.functions + [d]);
    }
  }

  /** The records of all of `fs` from those of its front and of its last element. */
  lemma {:induction false} FunctionsSnoc(later: Tables, fs: seq<Function>, front: seq<D.Function>, all: seq<D.Function>)
    requires fs != [] && |front| == |fs| - 1 && |all| == |fs| && all[..|front|] == front
    requires forall i :: 0 <= i < |front| ==> FunctionIn(later, i + 1, fs[..|fs| - 1][i], front[i])
    requires FunctionIn(later, |fs|, fs[|fs| - 1], all[|fs| - 1])
    ensures forall i :: 0 <= i < |fs| ==> FunctionIn(later, i + 1, fs[i], all[i])
  {
    forall i | 0 <= i < |fs|
      ensures FunctionIn(later, i + 1, fs[i], all[i])
    {
      if i < |fs| - 1 {
        assert fs[i] == fs[..|fs| - 1][i];
        assert all[i] == front[i];
      }
    }
  }

  // ---------------------------------------------------------------------
  // The string table and the comments.

  /** The string table comes back entry for entry, "" included. */
  lemma {:induction false} StringTableDecode(ss: seq<Str>, acc: D.Profile)
    ensures FoldFields(acc, StringTable(ss), D.ProfileField) == Ok(acc.(stringTable := acc.stringTable + ss))
    decreases |ss|
  {
    if ss != [] {
      var init := StringTable(ss[..|ss| - 1]);
      StringTableDecode(ss[..|ss| - 1], acc);
      var mid := acc.(stringTable := acc.stringTable + ss[..|ss| - 1]);
      FoldAppend(acc, init, [BytesField(6, ss[|ss| - 1])], D.ProfileField);
      assert [BytesField(6, ss[|ss| - 1])][1..] == [];
      assert FoldFields(mid, [BytesField(6, ss[|ss| - 1])], D.ProfileField)
          == Ok(mid.(stringTable := mid.stringTable + [ss[|ss| - 1]]));
      assert StringTable(ss) == init + [BytesField(6, ss[|ss| - 1])];
      assert ss[..|ss| - 1] + [ss[|ss| - 1]] == ss;
      assert acc.stringTable + ss[..|ss| - 1] + [ss[|ss| - 1]] == acc.stringTable + ss;
    } else {
      assert acc.stringTable + ss == acc.stringTable;
    }
  }

  /** The comments the encoder writes: every one but "", which interns to id 0 and is omitted. */
  function WrittenComments(cs: seq<Str>): (ws: seq<Str>)
    ensures |ws| <= |cs| && forall i :: 0 <= i < |ws| ==> ws[i] != [] && ws[i] in cs
    decreases |cs|
  {
    if cs == [] then []
    else WrittenComments(cs[..|cs| - 1]) + (if cs[|cs| - 1] == [] then [] else [cs[|cs| - 1]])
  }

  /** Each non-empty comment comes back, in order, as the id of its string. */
  lemma {:induction false} CommentsDecode(t: Tables, cs: seq<Str>, later: Tables, acc: D.Profile)
    requires acc.comment == [] && EmptyFirst(t) && Extends(EncComments(t, cs).tables, later)
    ensures var r := FoldFields(acc, EncComments(t, cs).fields, D.ProfileField);
      && r.Ok? && r.value == acc.(comment := r.value.comment)
      && CommentsIn(later, WrittenComments(cs), r.value.comment)
    decreases |cs|
  {
    if cs != [] {
      var init := EncComments(t, cs[..|cs| - 1]);
      var last := InternString(init.tables, cs[|cs| - 1]);
      ExtendsTrans(init.tables, last.tables, later);
      CommentsDecode(t, cs[..|cs| - 1], later, acc);
      var mid := FoldFields(acc, init.fields, D.ProfileField).value;
      CommentStep(acc, init.fields, mid, init.tables, cs[|cs| - 1], later);
      CommentsSnoc(later, WrittenComments(cs[..|cs| - 1]), cs[|cs| - 1], mid.comment, last.id);
    }
  }

  /** One more comment after fields that decoded cleanly: its id, unless it is "". */
  lemma {:induction false} CommentStep(acc: D.Profile, pre: seq<Field>, mid: D.Profile, t: Tables, c: Str, later: Tables)
    requires FoldFields(acc, pre, D.ProfileField) == Ok(mid)
    requires EmptyFirst(t) && Extends(InternString(t, c).tables, later)
    ensures var id := InternString(t, c).id;
      && FoldFields(acc, pre + VarintFields(13, id), D.ProfileField)
         == Ok(mid.(comment := if id == 0 then mid.comment else mid.comment + [id]))
      && StrAt(later, id, c) && (c != [] <==> id != 0)
  {
    var id := InternString(t, c).id;
    FoldVarintsAfter(acc, pre, 13, id, D.ProfileField);
    InternedStr(t, c, later);
    if id != 0 {
      VarintValueOf(id);
      assert D.ProfileField(mid, 13, Varint(id)) == Ok(mid.(comment := mid.comment + [id]));
    }
  }

  /** Comment `i` is id `ids[i]`, for every written comment. */
  predicate CommentsIn(T: Tables, ws: seq<Str>, ids: seq<nat>)
  {
    |ids| == |ws| && forall i :: 0 <= i < |ws| ==> StrAt(T, ids[i], ws[i])
  }

  lemma {:induction false} CommentsSnoc(T: Tables, ws: seq<Str>, c: Str, ids: seq<nat>, id: nat)
    requires CommentsIn(T, ws, ids) && StrAt(T, id, c) && (c != [] <==> id != 0)
    ensures CommentsIn(T, ws + (if c == [] then [] else [c]), if id == 0 then ids else ids + [id])
  {
    if c == [] {
      assert ws + [] == ws;
    }
  }

  // ---------------------------------------------------------------------
  // Layer 3: the whole profile.

  predicate ValueTypesIn(T: Tables, vs: seq<ValueType>, ds: seq<D.ValueType>)
  {
    |ds| == |vs| && forall i :: 0 <= i < |vs| ==> ValueTypeIn(T, vs[i], ds[i])
  }

  predicate SamplesIn(T: Tables, ss: seq<Sample>, ds: seq<D.Sample>)
  {
    |ds| == |ss| && forall i :: 0 <= i < |ss| ==> SampleIn(T, ss[i], ds[i])
  }

  predicate MappingsDecoded(T: Tables, ds: seq<D.Mapping>)
  {
    |ds| == |T.mappings| && forall i :: 0 <= i < |T.mappings| ==> ds[i] == MappingRecord(i + 1, T.mappings[i])
  }

  predicate LocationsDecoded(T: Tables, ds: seq<D.Location>)
  {
    |ds| == |T.locations| && forall i :: 0 <= i < |T.locations| ==> LocationIn(T, i + 1, T.locations[i], ds[i])
  }

  predicate FunctionsDecoded(T: Tables, ds: seq<D.Function>)
  {
    |ds| == |T.functions| && forall i :: 0 <= i < |T.functions| ==> FunctionIn(T, i + 1, T.functions[i], ds[i])
  }

  /** The decoded tables are the encoder's final tables, record for record, ids from 1. */
  predicate TablesDecoded(T: Tables, d: D.Profile)
  {
    && d.stringTable == T.strings && MappingsDecoded(T, d.mappings)
    && LocationsDecoded(T, d.locations) && FunctionsDecoded(T, d.functions)
  }

  /** The tables as they stand once the function table is written. */
  function TablesBeforePeriod(p: ProfileData): Tables
  {
    var types := EncSampleTypes(InitialTables, p.sampleType);
    var samples := EncSamples(types.tables, p.sample);
    var locations := EncLocationTable(samples.tables, samples.tables.locations);
    EncFunctionTable(locations.tables, locations.tables.functions).tables
  }

  /**
   * The sample types, samples, mappings, locations, functions and strings,
   * given the final tables `T` of the encoding.
   */
  function Head(p: ProfileData, T: Tables): seq<Field>
  {
    var types := EncSampleTypes(InitialTables, p.sampleType);
    var samples := EncSamples(types.tables, p.sample);
    var locations := EncLocationTable(samples.tables, samples.tables.locations);
    types.fields + samples.fields + EncMappingTable(T.mappings) + locations.fields
    + EncFunctionTable(locations.tables, T.functions).fields + StringTable(T.strings)
  }

  /** Fields 7 to 14, in the order the encoder writes them. */
  function Tail(p: ProfileData, periodType: seq<Field>, comments: seq<Field>): seq<Field>
  {
    VarintFields(7, p.dropFrames) + VarintFields(8, p.keepFrames)
    + VarintFields(9, p.timeNanos) + VarintFields(10, p.durationNanos)
    + DelimitedFields(11, Serialize(periodType))
    + VarintFields(12, p.period) + comments
    + VarintFields(14, p.defaultSampleType)
  }

  lemma {:induction false} ProfileSplit(p: ProfileData)
    ensures var periodType := EncValueType(TablesBeforePeriod(p), p.periodType);
      var comments := EncComments(periodType.tables, p.comment);
      var T := EncProfile(InitialTables, p).tables;
      && T == comments.tables
      && EncProfile(InitialTables, p).fields == Head(p, T) + Tail(p, periodType.fields, comments.fields)
  {
    var types := EncSampleTypes(InitialTables, p.sampleType);
    var samples := EncSamples(types.tables, p.sample);
    var locations := EncLocationTable(samples.tables, samples.tables.locations);
    var mappings := EncMappingTable(locations.tables.mappings);
    var functions := EncFunctionTable(locations.tables, locations.tables.functions);
    var periodType := EncValueType(functions.tables, p.periodType);
    var comments := EncComments(periodType.tables, p.comment);
    var e := EncProfile(InitialTables, p);
    assert e.tables == comments.tables;
    assert comments.tables.mappings == locations.tables.mappings;
    assert comments.tables.functions == locations.tables.functions;
    var head := types.fields + samples.fields + mappings + locations.fields + functions.fields
      + StringTable(comments.tables.strings);
    assert Head(p, e.tables) == head;
    var x7 := VarintFields(7, p.dropFrames);
    var x8 := VarintFields(8, p.keepFrames);
    var x9 := VarintFields(9, p.timeNanos);
    var x10 := VarintFields(10, p.durationNanos);
    var x11 := DelimitedFields(11, Serialize(periodType.fields));
    var x12 := VarintFields(12, p.period);
    var x14 := VarintFields(14, p.defaultSampleType);
    assert e.fields == head + x7 + x8 + x9 + x10 + x11 + x12 + comments.fields + x14;
    assert Tail(p, periodType.fields, comments.fields) == x7 + x8 + x9 + x10 + x11 + x12 + comments.fields + x14;
    AppendTail(head, x7, x8, x9, x10, x11, x12, comments.fields, x14);
  }

  lemma {:induction false} Regroup(a: seq<Field>, b: seq<Field>, c: seq<Field>, d: seq<Field>, e: seq<Field>, f: seq<Field>)
    ensures a + b + c + d + e + f == (a + b + c) + (d + e) + f
  {
  }

  lemma {:induction false} AppendTail(h: seq<Field>, a: seq<Field>, b: seq<Field>, c: seq<Field>, d: seq<Field>,
                   e: seq<Field>, f: seq<Field>, g: seq<Field>, k: seq<Field>)
    ensures h + a + b + c + d + e + f + g + k == h + (a + b + c + d + e + f + g + k)
  {
  }

  lemma {:induction false} HeadSmall(p: ProfileData, T: Tables)
    ensures SmallIndices(Head(p, T))
  {
    var types := EncSampleTypes(InitialTables, p.sampleType);
    var samples := EncSamples(types.tables, p.sample);
    var locations := EncLocationTable(samples.tables, samples.tables.locations);
    var mappings := EncMappingTable(T.mappings);
    var functions := EncFunctionTable(locations.tables, T.functions);
    var strings := StringTable(T.strings);
    SmallAll(types.fields, 1);
    SmallAll(samples.fields, 2);
    SmallAll(mappings, 3);
    SmallAll(locations.fields, 4);
    SmallAll(functions.fields, 5);
    SmallAll(strings, 6);
    SmallAppend(types.fields, samples.fields);
    SmallAppend(types.fields + samples.fields, mappings);
    SmallAppend(types.fields + samples.fields + mappings, locations.fields);
    SmallAppend(types.fields + samples.fields + mappings + locations.fields, functions.fields);
    SmallAppend(types.fields + samples.fields + mappings + locations.fields + functions.fields, strings);
  }

  lemma {:induction false} TailSmall(p: ProfileData, periodType: seq<Field>, comments: seq<Field>)
    requires AllIndex(comments, 13)
    ensures SmallIndices(Tail(p, periodType, comments))
  {
    SmallAll(comments, 13);
  }

  /** What the later sections of the encoding leave of the tables the earlier ones built. */
  lemma {:induction false} HeadTables(p: ProfileData)
    ensures var types := EncSampleTypes(InitialTables, p.sampleType);
      var samples := EncSamples(types.tables, p.sample);
      var locations := EncLocationTable(samples.tables, samples.tables.locations);
      var T := EncProfile(InitialTables, p).tables;
      && EmptyFirst(types.tables) && types.tables.locations == []
      && Extends(types.tables, T) && Extends(samples.tables, T) && Extends(locations.tables, T)
      && Extends(EncFunctionTable(locations.tables, locations.tables.functions).tables, T)
      && T.locations == samples.tables.locations
      && T.mappings == locations.tables.mappings && T.functions == locations.tables.functions
      && TablesBeforePeriod(p) == EncFunctionTable(locations.tables, locations.tables.functions).tables
      && EmptyFirst(TablesBeforePeriod(p))
  {
    var types := EncSampleTypes(InitialTables, p.sampleType);
    var samples := EncSamples(types.tables, p.sample);
    var locations := EncLocationTable(samples.tables, samples.tables.locations);
    var functions := EncFunctionTable(locations.tables, locations.tables.functions);
    var periodType := EncValueType(functions.tables, p.periodType);
    var comments := EncComments(periodType.tables, p.comment);
    ProfileSplit(p);
    ExtendsTrans(periodType.tables, comments.tables, EncProfile(InitialTables, p).tables);
    ExtendsTrans(functions.tables, periodType.tables, comments.tables);
    ExtendsTrans(locations.tables, functions.tables, comments.tables);
    ExtendsTrans(samples.tables, locations.tables, comments.tables);
    ExtendsTrans(types.tables, samples.tables, comments.tables);
  }

  /** The sample types, the samples and the mapping table. */
  lemma {:induction false} FrontDecode(vs: seq<ValueType>, ss: seq<Sample>, T: Tables)
    requires forall i :: 0 <= i < |vs| ==> EncodableValueType(vs[i])
    requires forall i :: 0 <= i < |ss| ==> EncodableSample(ss[i])
    requires Extends(EncSamples(EncSampleTypes(InitialTables, vs).tables, ss).tables, T)
    ensures var types := EncSampleTypes(InitialTables, vs);
      var front := types.fields + EncSamples(types.tables, ss).fields + EncMappingTable(T.mappings);
      var r := FoldFields(D.Profile(), front, D.ProfileField);
      && r.Ok?
      && r.value == D.Profile(sampleTypes := r.value.sampleTypes, samples := r.value.samples, mappings := r.value.mappings)
      && ValueTypesIn(T, vs, r.value.sampleTypes) && SamplesIn(T, ss, r.value.samples)
      && MappingsDecoded(T, r.value.mappings)
  {
    var types := EncSampleTypes(InitialTables, vs);
    var samples := EncSamples(types.tables, ss);
    ExtendsTrans(types.tables, samples.tables, T);
    var f1 := types.fields;
    var f2 := f1 + samples.fields;
    var a0 := D.Profile();
    SampleTypesDecode(InitialTables, vs, T, a0);
    var a1 := FoldFields(a0, f1, D.ProfileField).value;
    SamplesDecode(types.tables, ss, T, a1);
    FoldAppend(a0, f1, samples.fields, D.ProfileField);
    var a2 := FoldFields(a0, f2, D.ProfileField).value;
    MappingTableDecode(T.mappings, a2);
    FoldAppend(a0, f2, EncMappingTable(T.mappings), D.ProfileField);
  }

  /** The location table and the function table. */
  lemma {:induction false} BackDecode(st: Tables, T: Tables, acc: D.Profile)
    requires acc.locations == [] && acc.functions == []
    requires forall i :: 0 <= i < |st.locations| ==> LinesEncodable(st.locations[i])
    requires T.locations == st.locations
    requires var locations := EncLocationTable(st, st.locations);
      Extends(EncFunctionTable(locations.tables, T.functions).tables, T)
    ensures var locations := EncLocationTable(st, st.locations);
      var back := locations.fields + EncFunctionTable(locations.tables, T.functions).fields;
      var r := FoldFields(acc, back, D.ProfileField);
      && r.Ok?
      && r.value == acc.(locations := r.value.locations, functions := r.value.functions)
      && LocationsDecoded(T, r.value.locations) && FunctionsDecoded(T, r.value.functions)
  {
    var locations := EncLocationTable(st, st.locations);
    var functions := EncFunctionTable(locations.tables, T.functions);
    ExtendsTrans(locations.tables, functions.tables, T);
    LocationTableDecode(st, st.locations, T, acc);
    var b1 := FoldFields(acc, locations.fields, D.ProfileField).value;
    FunctionTableDecode(locations.tables, T.functions, T, b1);
    FoldAppend(acc, locations.fields, functions.fields, D.ProfileField);
  }

  /** The string table after fields that decoded cleanly and left it empty. */
  lemma {:induction false} StringsStep(acc: D.Profile, pre: seq<Field>, ss: seq<Str>)
    requires FoldFields(acc, pre, D.ProfileField).Ok? && FoldFields(acc, pre, D.ProfileField).value.stringTable == []
    ensures var mid := FoldFields(acc, pre, D.ProfileField).value;
      FoldFields(acc, pre + StringTable(ss), D.ProfileField) == Ok(mid.(stringTable := ss))
  {
    var mid := FoldFields(acc, pre, D.ProfileField).value;
    StringTableDecode(ss, mid);
    FoldAppend(acc, pre, StringTable(ss), D.ProfileField);
    assert mid.stringTable + ss == ss;
  }

  /** The six tables at the head of the encoding decode into the encoder's records. */
  lemma {:induction false} HeadDecode(p: ProfileData, T: Tables)
    requires Encodable(p)
    requires var types := EncSampleTypes(InitialTables, p.sampleType);
      var samples := EncSamples(types.tables, p.sample);
      var locations := EncLocationTable(samples.tables, samples.tables.locations);
      && Extends(samples.tables, T) && T.locations == samples.tables.locations
      && Extends(EncFunctionTable(locations.tables, T.functions).tables, T)
    ensures var r := FoldFields(D.Profile(), Head(p, T), D.ProfileField);
      && r.Ok?
      && r.value == D.Profile(sampleTypes := r.value.sampleTypes, samples := r.value.samples,
                              mappings := r.value.mappings, locations := r.value.locations,
                              functions := r.value.functions, stringTable := r.value.stringTable)
      && ValueTypesIn(T, p.sampleType, r.value.sampleTypes) && SamplesIn(T, p.sample, r.value.samples)
      && TablesDecoded(T, r.value)
  {
    var types := EncSampleTypes(InitialTables, p.sampleType);
    var samples := EncSamples(types.tables, p.sample);
    var locations := EncLocationTable(samples.tables, samples.tables.locations);
    var front := types.fields + samples.fields + EncMappingTable(T.mappings);
    var back := locations.fields + EncFunctionTable(locations.tables, T.functions).fields;
    Regroup(types.fields, samples.fields, EncMappingTable(T.mappings), locations.fields,
      EncFunctionTable(locations.tables, T.functions).fields, StringTable(T.strings));
    FrontDecode(p.sampleType, p.sample, T);
    var a := FoldFields(D.Profile(), front, D.ProfileField).value;
    SampleLocationsEncodable(types.tables, p.sample);
    BackDecode(samples.tables, T, a);
    FoldAppend(D.Profile(), front, back, D.ProfileField);
    StringsStep(D.Profile(), front + back, T.strings);
  }

  /** The numeric profile field `k` of a decoded profile. */
  function ScalarOf(d: D.Profile, k: nat): nat
  {
    if k == 7 then d.dropFrames else if k == 8 then d.keepFrames
    else if k == 9 then d.timeNanos else if k == 10 then d.durationNanos
    else if k == 12 then d.period else d.defaultSampleType
  }

  /** `d` with numeric profile field `k` set to `n`. */
  function WithScalar(d: D.Profile, k: nat, n: nat): (r: D.Profile)
    ensures ScalarOf(d, k) == n ==> r == d
  {
    if k == 7 then d.(dropFrames := n) else if k == 8 then d.(keepFrames := n)
    else if k == 9 then d.(timeNanos := n) else if k == 10 then d.(durationNanos := n)
    else if k == 12 then d.(period := n) else d.(defaultSampleType := n)
  }

  /** A numeric profile field after fields that decoded cleanly and left it 0. */
  lemma {:induction false} ScalarAfter(acc: D.Profile, pre: seq<Field>, a: D.Profile, k: nat, n: nat)
    requires k == 7 || k == 8 || k == 9 || k == 10 || k == 12 || k == 14
    requires FoldFields(acc, pre, D.ProfileField) == Ok(a) && ScalarOf(a, k) == 0
    ensures FoldFields(acc, pre + VarintFields(k, n), D.ProfileField) == Ok(WithScalar(a, k, n))
  {
    FoldVarintsAfter(acc, pre, k, n, D.ProfileField);
    VarintValueOf(n);
  }

  /** drop_frames, keep_frames, time_nanos and duration_nanos. */
  lemma {:induction false} ScalarsDecode(acc: D.Profile, p: ProfileData)
    requires acc.dropFrames == 0 && acc.keepFrames == 0 && acc.timeNanos == 0 && acc.durationNanos == 0
    ensures FoldFields(acc, VarintFields(7, p.dropFrames) + VarintFields(8, p.keepFrames)
        + VarintFields(9, p.timeNanos) + VarintFields(10, p.durationNanos), D.ProfileField)
      == Ok(acc.(dropFrames := p.dropFrames, keepFrames := p.keepFrames,
                 timeNanos := p.timeNanos, durationNanos := p.durationNanos))
  {
    var q7 := VarintFields(7, p.dropFrames);
    var q8 := q7 + VarintFields(8, p.keepFrames);
    var q9 := q8 + VarintFields(9, p.timeNanos);
    assert [] + q7 == q7;
    ScalarAfter(acc, [], acc, 7, p.dropFrames);
    var a7 := acc.(dropFrames := p.dropFrames);
    ScalarAfter(acc, q7, a7, 8, p.keepFrames);
    var a8 := a7.(keepFrames := p.keepFrames);
    ScalarAfter(acc, q8, a8, 9, p.timeNanos);
    var a9 := a8.(timeNanos := p.timeNanos);
    ScalarAfter(acc, q9, a9, 10, p.durationNanos);
  }

  /** The period type, after fields that decoded cleanly: written only when non-empty. */
  lemma {:induction false} PeriodStep(acc: D.Profile, pre: seq<Field>, t: Tables, v: ValueType, later: Tables)
    requires FoldFields(acc, pre, D.ProfileField).Ok?
    requires FoldFields(acc, pre, D.ProfileField).value.periodType == D.ValueType()
    requires Extends(EncValueType(t, v).tables, later)
    ensures var mid := FoldFields(acc, pre, D.ProfileField).value;
      var r := FoldFields(acc, pre + DelimitedFields(11, Serialize(EncValueType(t, v).fields)), D.ProfileField);
      && r.Ok? && r.value == mid.(periodType := r.value.periodType)
      && ValueTypeIn(later, v, r.value.periodType)
  {
    var payload := Serialize(EncValueType(t, v).fields);
    ValueTypeDecode(t, v, later);
    PeriodAfter(acc, pre, payload, D.DecodeFields(D.ValueType(), payload, D.ValueTypeField).value);
  }

  lemma {:induction false} PeriodAfter(acc: D.Profile, pre: seq<Field>, payload: Bytes, d: D.ValueType)
    requires FoldFields(acc, pre, D.ProfileField).Ok?
    requires FoldFields(acc, pre, D.ProfileField).value.periodType == D.ValueType()
    requires D.DecodeFields(D.ValueType(), payload, D.ValueTypeField) == Ok(d)
    ensures var mid := FoldFields(acc, pre, D.ProfileField).value;
      FoldFields(acc, pre + DelimitedFields(11, payload), D.ProfileField) == Ok(mid.(periodType := d))
  {
    FoldDelimitedAfter(acc, pre, 11, payload, D.ProfileField);
  }

  /** Fields 7 to 14 decode into the profile's scalars, period type and comments. */
  lemma {:induction false} TailDecode(acc: D.Profile, p: ProfileData, t: Tables, T: Tables)
    requires acc.dropFrames == 0 && acc.keepFrames == 0 && acc.timeNanos == 0 && acc.durationNanos == 0
    requires acc.periodType == D.ValueType() && acc.period == 0 && acc.comment == [] && acc.defaultSampleType == 0
    requires EmptyFirst(t) && Extends(EncComments(EncValueType(t, p.periodType).tables, p.comment).tables, T)
    ensures var periodType := EncValueType(t, p.periodType);
      var comments := EncComments(periodType.tables, p.comment);
      var r := FoldFields(acc, Tail(p, periodType.fields, comments.fields), D.ProfileField);
      && r.Ok?
      && r.value == acc.(dropFrames := p.dropFrames, keepFrames := p.keepFrames, timeNanos := p.timeNanos,
                         durationNanos := p.durationNanos, periodType := r.value.periodType, period := p.period,
                         comment := r.value.comment, defaultSampleType := p.defaultSampleType)
      && ValueTypeIn(T, p.periodType, r.value.periodType)
      && CommentsIn(T, WrittenComments(p.comment), r.value.comment)
  {
    var periodType := EncValueType(t, p.periodType);
    var comments := EncComments(periodType.tables, p.comment);
    ExtendsTrans(periodType.tables, comments.tables, T);
    var q10 := VarintFields(7, p.dropFrames) + VarintFields(8, p.keepFrames)
      + VarintFields(9, p.timeNanos) + VarintFields(10, p.durationNanos);
    var q11 := q10 + DelimitedFields(11, Serialize(periodType.fields));
    var q12 := q11 + VarintFields(12, p.period);
    var q13 := q12 + comments.fields;
    ScalarsDecode(acc, p);
    PeriodStep(acc, q10, t, p.periodType, T);
    var a11 := FoldFields(acc, q11, D.ProfileField).value;
    ScalarAfter(acc, q11, a11, 12, p.period);
    var a12 := a11.(period := p.period);
    CommentsDecode(periodType.tables, p.comment, T, a12);
    FoldAppend(acc, q12, comments.fields, D.ProfileField);
    var a13 := FoldFields(acc, q13, D.ProfileField).value;
    ScalarAfter(acc, q13, a13, 14, p.defaultSampleType);
  }

  /** What the decoded profile says about the encoded one, field by field. */
  predicate ProfileDecoded(p: ProfileData, T: Tables, d: D.Profile)
  {
    && TablesDecoded(T, d)
    && ValueTypesIn(T, p.sampleType, d.sampleTypes) && SamplesIn(T, p.sample, d.samples)
    && ValueTypeIn(T, p.periodType, d.periodType)
    && d.dropFrames == p.dropFrames && d.keepFrames == p.keepFrames
    && d.timeNanos == p.timeNanos && d.durationNanos == p.durationNanos
    && d.period == p.period && d.defaultSampleType == p.defaultSampleType
    && CommentsIn(T, WrittenComments(p.comment), d.comment)
  }

  /** The fields of an encoded profile fold into a decoded profile that matches it. */
  lemma {:induction false} ProfileFold(p: ProfileData)
    requires Encodable(p)
    ensures var e := EncProfile(InitialTables, p);
      var r := FoldFields(D.Profile(), e.fields, D.ProfileField);
      && SmallIndices(e.fields) && r.Ok? && ProfileDecoded(p, e.tables, r.value)
  {
    var e := EncProfile(InitialTables, p);
    var T := e.tables;
    var periodType := EncValueType(TablesBeforePeriod(p), p.periodType);
    var comments := EncComments(periodType.tables, p.comment);
    var head := Head(p, T);
    var tail := Tail(p, periodType.fields, comments.fields);
    ProfileSplit(p);
    HeadTables(p);
    HeadDecode(p, T);
    var h := FoldFields(D.Profile(), head, D.ProfileField).value;
    TailDecode(h, p, TablesBeforePeriod(p), T);
    FoldAppend(D.Profile(), head, tail, D.ProfileField);
    HeadSmall(p, T);
    TailSmall(p, periodType.fields, comments.fields);
    SmallAppend(head, tail);
  }

  /**
   * The round trip of the C++ test: a profile the encoder writes from fresh
   * tables decodes without error, into records that match it field by field.
   */
  lemma {:induction false} ProfileDecode(p: ProfileData)
    requires Encodable(p)
    ensures var e := EncProfile(InitialTables, p);
      var r := D.DecodeFields(D.Profile(), Serialize(e.fields), D.ProfileField);
      r.Ok? && ProfileDecoded(p, e.tables, r.value)
  {
    ProfileFold(p);
    DecodeSerialized(D.Profile(), EncProfile(InitialTables, p).fields, D.ProfileField);
  }
}
