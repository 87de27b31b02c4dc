/**
 * The TypeScript test decoder (ts/test/decode.ts, with lengths read as
 * varints) reads back what the Encoder writes, field by field: on a list of
 * fields whose numbers fit the tag's five field bits, its decode loop is a
 * left fold of the class's `decodeValue` over the fields' payloads; and the
 * records made only of numbers (value types, labels, lines, functions) come
 * back with the numbers the encoder interned.
 */
module TsRoundTrip {
  import opened Bytes
  import opened Wire
  import opened Wrappers
  import opened Pprof
  import opened Interning
  import opened EncodingSpec
  import R = CppRoundTrip
  import TS = TsDecoder

  // ---------------------------------------------------------------------
  // The decode loop over serialized fields is a fold.

  /** Every field number fits the five field bits of the one tag byte. */
  predicate TagIndices(fs: seq<Field>)
  {
    forall i :: 0 <= i < |fs| ==> fs[i].index < 32
  }

  /** The class's `decodeValue` applied in order to the fields' payloads. */
  function ApplyFields<T>(acc: T, fs: seq<Field>, decodeValue: (T, int, Bytes) -> Result<T, TS.DecodeError>): Result<T, TS.DecodeError>
    decreases |fs|
  {
    if fs == [] then Ok(acc)
    else
      match decodeValue(acc, fs[0].index, R.Payload(fs[0]))
      case Err(e) => Err(e)
      case Ok(next) => ApplyFields(next, fs[1..], decodeValue)
  }

  /** A varint field read back: its flag, the varint, and the bytes after it. */
  lemma {:induction false} ReadVarintField<T>(acc: T, i: nat, v: nat, rest: Bytes, decodeValue: (T, int, Bytes) -> Result<T, TS.DecodeError>)
    requires i < 32
    ensures var u := decodeValue(acc, i, Varint(v));
      TS.DecodeFields(acc, [Tag(i, WireTypeVarInt)] + Varint(v) + rest, decodeValue)
      == if u.Err? then Err(u.error) else TS.DecodeFields(u.value, rest, decodeValue)
  {
    var buffer := [Tag(i, WireTypeVarInt)] + Varint(v) + rest;
    TS.FieldFlagOfTag(i, WireTypeVarInt);
    FlagThenValue(Tag(i, WireTypeVarInt), Varint(v), rest);
    TS.GetValueVarint(v, rest);
  }

  /** After the flag byte comes the value, and after the value the rest. */
  lemma FlagThenValue(flag: byte, value: Bytes, rest: Bytes)
    ensures ([flag] + value + rest)[1..] == value + rest
    ensures ([flag] + value + rest)[1 + |value|..] == rest
  {
    assert ([flag] + value + rest)[1..] == value + rest;
  }

  /** After the flag byte come the size and the value, and after the value the rest. */
  lemma FlagThenSizedValue(flag: byte, size: Bytes, value: Bytes, rest: Bytes)
    ensures ([flag] + size + value + rest)[1..] == size + value + rest
    ensures ([flag] + size + value + rest)[1 + |value| + |size|..] == rest
  {
    assert ([flag] + size + value + rest)[1..] == size + value + rest;
  }

  /** A length-delimited field read back: its flag, its length, the payload, and the bytes after it. */
  lemma {:induction false} ReadBytesField<T>(acc: T, i: nat, p: Bytes, rest: Bytes, decodeValue: (T, int, Bytes) -> Result<T, TS.DecodeError>)
    requires i < 32
    ensures var u := decodeValue(acc, i, p);
      TS.DecodeFields(acc, [Tag(i, WireTypeLengthDelimited)] + Varint(|p|) + p + rest, decodeValue)
      == if u.Err? then Err(u.error) else TS.DecodeFields(u.value, rest, decodeValue)
  {
    var buffer := [Tag(i, WireTypeLengthDelimited)] + Varint(|p|) + p + rest;
    TS.FieldFlagOfTag(i, WireTypeLengthDelimited);
    FlagThenSizedValue(Tag(i, WireTypeLengthDelimited), Varint(|p|), p, rest);
    TS.GetValueDelimited(p, rest);
  }

  /** One field read back. */
  lemma {:induction false} ReadField<T>(acc: T, f: Field, rest: Bytes, decodeValue: (T, int, Bytes) -> Result<T, TS.DecodeError>)
    requires f.index < 32
    ensures var u := decodeValue(acc, f.index, R.Payload(f));
      TS.DecodeFields(acc, FieldBytes(f) + rest, decodeValue) == if u.Err? then Err(u.error) else TS.DecodeFields(u.value, rest, decodeValue)
  {
    match f
    case VarintField(i, v) => ReadVarintField(acc, i, v, rest, decodeValue);
    case BytesField(i, p) => ReadBytesField(acc, i, p, rest, decodeValue);
  }

  /** Decoding serialized fields reads each flag, value and length back exactly. */
  lemma {:induction false} ReadSerialized<T>(acc: T, fs: seq<Field>, decodeValue: (T, int, Bytes) -> Result<T, TS.DecodeError>)
    requires TagIndices(fs)
    ensures TS.DecodeFields(acc, Serialize(fs), decodeValue) == ApplyFields(acc, fs, decodeValue)
    decreases |fs|
  {
    if fs != [] {
      ReadField(acc, fs[0], Serialize(fs[1..]), decodeValue);
      match decodeValue(acc, fs[0].index, R.Payload(fs[0])) {
        case Err(_) =>
        case Ok(next) => ReadSerialized(next, fs[1..], decodeValue);
      }
    }
  }

  // ---------------------------------------------------------------------
  // The loop as written agrees with it while every payload is short.

  /** Every length-delimited payload is shorter than 128 bytes, so its length fits one byte. */
  predicate ShortPayloads(fs: seq<Field>)
  {
    forall i :: 0 <= i < |fs| ==> fs[i].BytesField? ==> |fs[i].payload| < 128
  }

  /** One short field read back by the loop as written: its flag, its value, and the bytes after it. */
  lemma {:induction false} ReadFieldAsWritten<T>(acc: T, f: Field, rest: Bytes,
                                                 decodeValue: (T, int, Bytes) -> Result<T, TS.DecodeError>)
    requires f.index < 32 && (f.BytesField? ==> |f.payload| < 128)
    ensures var u := decodeValue(acc, f.index, R.Payload(f));
      TS.DecodeFieldsAsWritten(acc, FieldBytes(f) + rest, decodeValue)
      == if u.Err? then Err(u.error) else TS.DecodeFieldsAsWritten(u.value, rest, decodeValue)
  {
    match f
    case VarintField(i, v) =>
      TS.FieldFlagOfTag(i, WireTypeVarInt);
      FlagThenValue(Tag(i, WireTypeVarInt), Varint(v), rest);
      TS.GetValueVarint(v, rest);
    case BytesField(i, p) =>
      TS.FieldFlagOfTag(i, WireTypeLengthDelimited);
      FlagThenSizedValue(Tag(i, WireTypeLengthDelimited), Varint(|p|), p, rest);
      TS.OneByteLengthShortPayload(p, rest);
      TS.GetValueDelimited(p, rest);
  }

  /** The loop as written reads serialized fields with short payloads as the fold of `decodeValue`. */
  lemma {:induction false} ReadSerializedAsWritten<T>(acc: T, fs: seq<Field>,
                                                      decodeValue: (T, int, Bytes) -> Result<T, TS.DecodeError>)
    requires TagIndices(fs) && ShortPayloads(fs)
    ensures TS.DecodeFieldsAsWritten(acc, Serialize(fs), decodeValue) == ApplyFields(acc, fs, decodeValue)
    decreases |fs|
  {
    if fs != [] {
      ReadFieldAsWritten(acc, fs[0], Serialize(fs[1..]), decodeValue);
      match decodeValue(acc, fs[0].index, R.Payload(fs[0])) {
        case Err(_) =>
        case Ok(next) =>
          assert ShortPayloads(fs[1..]) by {
            forall k | 0 <= k < |fs[1..]| ensures fs[1..][k].BytesField? ==> |fs[1..][k].payload| < 128 {
              assert fs[1..][k] == fs[k + 1];
            }
          }
          ReadSerializedAsWritten(next, fs[1..], decodeValue);
      }
    }
  }

  /**
   * Where no payload reaches 128 bytes, the loop as written and the loop over
   * the corrected reader decode the same serialized message to the same result.
   */
  lemma {:induction false} AsWrittenAgrees<T>(acc: T, fs: seq<Field>,
                                              decodeValue: (T, int, Bytes) -> Result<T, TS.DecodeError>)
    requires TagIndices(fs) && ShortPayloads(fs)
    ensures TS.DecodeFieldsAsWritten(acc, Serialize(fs), decodeValue) == TS.DecodeFields(acc, Serialize(fs), decodeValue)
  {
    ReadSerializedAsWritten(acc, fs, decodeValue);
    ReadSerialized(acc, fs, decodeValue);
  }

  /** Applying to a concatenation: the first part, then the second from where it ended. */
  lemma {:induction false} ApplyAppend<T>(acc: T, a: seq<Field>, b: seq<Field>, decodeValue: (T, int, Bytes) -> Result<T, TS.DecodeError>)
    requires ApplyFields(acc, a, decodeValue).Ok?
    ensures ApplyFields(acc, a + b, decodeValue) == ApplyFields(ApplyFields(acc, a, decodeValue).value, b, decodeValue)
    decreases |a|
  {
    if a == [] {
      assert a + b == b;
    } else {
      assert (a + b)[0] == a[0] && (a + b)[1..] == a[1..] + b;
      ApplyAppend(decodeValue(acc, a[0].index, R.Payload(a[0])).value, a[1..], b, decodeValue);
    }
  }

  /** An omitted zero, or one varint field. */
  lemma {:induction false} ApplyVarints<T>(acc: T, k: nat, n: nat, decodeValue: (T, int, Bytes) -> Result<T, TS.DecodeError>)
    ensures ApplyFields(acc, VarintFields(k, n), decodeValue) == if n == 0 then Ok(acc) else decodeValue(acc, k, Varint(n))
  {
    if n != 0 {
      assert VarintFields(k, n)[1..] == [];
    }
  }

  /** A varint field appended to fields that apply cleanly. */
  lemma {:induction false} ApplyVarintsAfter<T>(acc: T, pre: seq<Field>, k: nat, n: nat, decodeValue: (T, int, Bytes) -> Result<T, TS.DecodeError>)
    requires ApplyFields(acc, pre, decodeValue).Ok?
    ensures var mid := ApplyFields(acc, pre, decodeValue).value;
      ApplyFields(acc, pre + VarintFields(k, n), decodeValue) == if n == 0 then Ok(mid) else decodeValue(mid, k, Varint(n))
  {
    ApplyAppend(acc, pre, VarintFields(k, n), decodeValue);
    ApplyVarints(ApplyFields(acc, pre, decodeValue).value, k, n, decodeValue);
  }

  lemma {:induction false} TagAppend(a: seq<Field>, b: seq<Field>)
    requires TagIndices(a) && TagIndices(b)
    ensures TagIndices(a + b)
  {
  }

  /** `decodeNumber` on the encoder's varint gives the number back. */
  lemma {:induction false} NumberOf(n: nat)
    ensures TS.DecodeNumber(Varint(n)) == n
  {
    VarintCorrect(n);
  }

  // ---------------------------------------------------------------------
  // The records made only of numbers.

  /** The two numeric fields of a value-type record. */
  lemma {:induction false} ValueTypeNumbers(typ: nat, unit: nat)
    ensures var p2 := VarintFields(1, typ) + VarintFields(2, unit);
      TagIndices(p2) && ApplyFields(TS.ValueType(), p2, TS.ValueTypeField) == Ok(TS.ValueType(typ, unit))
  {
    var p1 := VarintFields(1, typ);
    TagAppend(p1, VarintFields(2, unit));
    NumberOf(typ);
    NumberOf(unit);
    ApplyVarints(TS.ValueType(), 1, typ, TS.ValueTypeField);
    ApplyVarintsAfter(TS.ValueType(), p1, 2, unit, TS.ValueTypeField);
  }

  /** An encoded value type reads back as the ids of its type and unit strings. */
  lemma {:induction false} ValueTypeRead(t: Tables, v: ValueType, later: Tables)
    requires Extends(EncValueType(t, v).tables, later)
    ensures var r := TS.DecodeFields(TS.ValueType(), Serialize(EncValueType(t, v).fields), TS.ValueTypeField);
      r.Ok? && R.StrAt(later, r.value.typ, v.typeName) && R.StrAt(later, r.value.unit, v.unit)
  {
    var ty := InternString(t, v.typeName);
    var un := InternString(ty.tables, v.unit);
    ExtendsTrans(ty.tables, un.tables, later);
    R.InternedStr(t, v.typeName, later);
    R.InternedStr(ty.tables, v.unit, later);
    ValueTypeNumbers(ty.id, un.id);
    ReadSerialized(TS.ValueType(), EncValueType(t, v).fields, TS.ValueTypeField);
  }

  /** The four numeric fields of a label record. */
  lemma {:induction false} LabelNumbers(key: nat, str: nat, num: nat, unit: nat)
    ensures var p4 := VarintFields(1, key) + VarintFields(2, str) + VarintFields(3, num) + VarintFields(4, unit);
      TagIndices(p4) && ApplyFields(TS.Label(), p4, TS.LabelField) == Ok(TS.Label(key, str, num, unit))
  {
    var p1 := VarintFields(1, key);
    var p2 := p1 + VarintFields(2, str);
    var p3 := p2 + VarintFields(3, num);
    TagAppend(p1, VarintFields(2, str));
    TagAppend(p2, VarintFields(3, num));
    TagAppend(p3, VarintFields(4, unit));
    NumberOf(key);
    NumberOf(str);
    NumberOf(num);
    NumberOf(unit);
    ApplyVarints(TS.Label(), 1, key, TS.LabelField);
    ApplyVarintsAfter(TS.Label(), p1, 2, str, TS.LabelField);
    ApplyVarintsAfter(TS.Label(), p2, 3, num, TS.LabelField);
    ApplyVarintsAfter(TS.Label(), p3, 4, unit, TS.LabelField);
  }

  /** An encoded label reads back as the ids of its strings and its number. */
  lemma {:induction false} LabelRead(t: Tables, l: Label, later: Tables)
    requires Extends(EncLabel(t, l).tables, later)
    ensures var r := TS.DecodeFields(TS.Label(), Serialize(EncLabel(t, l).fields), TS.LabelField);
      && r.Ok? && R.StrAt(later, r.value.key, l.key) && R.StrAt(later, r.value.str, l.str)
      && r.value.num == l.num && R.StrAt(later, r.value.numUnit, l.numUnit)
  {
    var key := InternString(t, l.key);
    var str := InternString(key.tables, l.str);
    var unit := InternString(str.tables, l.numUnit);
    ExtendsTrans(str.tables, unit.tables, later);
    ExtendsTrans(key.tables, str.tables, later);
    R.InternedStr(t, l.key, later);
    R.InternedStr(key.tables, l.str, later);
    R.InternedStr(str.tables, l.numUnit, later);
    LabelNumbers(key.id, str.id, l.num, unit.id);
    ReadSerialized(TS.Label(), EncLabel(t, l).fields, TS.LabelField);
  }

  /** The two numeric fields of a line record. */
  lemma {:induction false} LineNumbers(functionId: nat, line: nat)
    ensures var p2 := VarintFields(1, functionId) + VarintFields(2, line);
      TagIndices(p2) && ApplyFields(TS.Line(), p2, TS.LineField) == Ok(TS.Line(functionId, line))
  {
    var p1 := VarintFields(1, functionId);
    TagAppend(p1, VarintFields(2, line));
    NumberOf(functionId);
    NumberOf(line);
    ApplyVarints(TS.Line(), 1, functionId, TS.LineField);
    ApplyVarintsAfter(TS.Line(), p1, 2, line, TS.LineField);
  }

  /** An encoded line reads back as its line number and the 1-based id of its function. */
  lemma {:induction false} LineRead(t: Tables, l: Line, later: Tables)
    requires l.func != DefaultFunction && Extends(EncLine(t, l).tables, later)
    ensures var r := TS.DecodeFields(TS.Line(), Serialize(EncLine(t, l).fields), TS.LineField);
      r.Ok? && r.value.line == l.line && R.FunctionAt(later, r.value.functionId, l.func)
  {
    var f := InternFunction(t, l.func);
    assert R.FunctionAt(later, f.id, l.func) by {
      assert EncLine(t, l).tables == f.tables;
      R.InternedFunction(t, l.func, later);
    }
    LineFieldsRead(EncLine(t, l).fields, f.id, l.line, later, l.func);
  }

  /** The fields of a line whose function id names `func` in `later` read back as that id and the line number. */
  lemma {:induction false} LineFieldsRead(fields: seq<Field>, functionId: nat, line: nat, later: Tables, func: Function)
    requires fields == VarintFields(1, functionId) + VarintFields(2, line)
    requires R.FunctionAt(later, functionId, func)
    ensures var r := TS.DecodeFields(TS.Line(), Serialize(fields), TS.LineField);
      r.Ok? && r.value.line == line && R.FunctionAt(later, r.value.functionId, func)
  {
    LineNumbers(functionId, line);
    ReadSerialized(TS.Line(), fields, TS.LineField);
  }

  /** The five numeric fields of a function record. */
  lemma {:induction false} FunctionNumbers(id: nat, name: nat, systemName: nat, filename: nat, startLine: nat)
    ensures var p5 := VarintFields(1, id) + VarintFields(2, name) + VarintFields(3, systemName)
        + VarintFields(4, filename) + VarintFields(5, startLine);
      && TagIndices(p5)
      && ApplyFields(TS.Function(), p5, TS.FunctionField) == Ok(TS.Function(id, name, systemName, filename, startLine))
  {
    var p1 := VarintFields(1, id);
    var p2 := p1 + VarintFields(2, name);
    var p3 := p2 + VarintFields(3, systemName);
    var p4 := p3 + VarintFields(4, filename);
    TagAppend(p1, VarintFields(2, name));
    TagAppend(p2, VarintFields(3, systemName));
    TagAppend(p3, VarintFields(4, filename));
    TagAppend(p4, VarintFields(5, startLine));
    NumberOf(id);
    NumberOf(name);
    NumberOf(systemName);
    NumberOf(filename);
    NumberOf(startLine);
    var a0 := TS.Function();
    ApplyVarints(a0, 1, id, TS.FunctionField);
    ApplyVarintsAfter(a0, p1, 2, name, TS.FunctionField);
    ApplyVarintsAfter(a0, p2, 3, systemName, TS.FunctionField);
    ApplyVarintsAfter(a0, p3, 4, filename, TS.FunctionField);
    ApplyVarintsAfter(a0, p4, 5, startLine, TS.FunctionField);
  }

  /** An encoded function reads back as its id, the ids of its three strings and its start line. */
  lemma {:induction false} FunctionRead(t: Tables, id: nat, f: Function, later: Tables)
    requires Extends(EncFunction(t, id, f).tables, later)
    ensures var r := TS.DecodeFields(TS.Function(), Serialize(EncFunction(t, id, f).fields), TS.FunctionField);
      && r.Ok? && r.value.id == id && R.StrAt(later, r.value.name, f.name)
      && R.StrAt(later, r.value.systemName, f.systemName) && R.StrAt(later, r.value.filename, f.filename)
      && r.value.startLine == f.startLine
  {
    var name := InternString(t, f.name);
    var systemName := InternString(name.tables, f.systemName);
    var filename := InternString(systemName.tables, f.filename);
    ExtendsTrans(systemName.tables, filename.tables, later);
    ExtendsTrans(name.tables, systemName.tables, later);
    R.InternedStr(t, f.name, later);
    R.InternedStr(name.tables, f.systemName, later);
    R.InternedStr(systemName.tables, f.filename, later);
    FunctionNumbers(id, name.id, systemName.id, filename.id, f.startLine);
    ReadSerialized(TS.Function(), EncFunction(t, id, f).fields, TS.FunctionField);
  }
}
