/**
 * The hand-written protobuf parser of the C++ tests (bindings/pprof.test.cc).
 *
 * Its structs mirror the pprof messages with every string and record
 * reference left as a number.  Each `decode` walks its buffer with an index:
 * one tag byte, then a value whose extent `get_value` finds from the wire
 * type, then a field-specific update.  The walk is specified once, by
 * DecodeFields, parameterised by each struct's per-field update.
 */
module CppDecoder {
  import opened Bytes
  import opened Wire
  import opened Wrappers

  const TypeVarInt: int := 0
  const TypeLengthDelim: int := 2

  function Min(a: int, b: int): int { if a < b then a else b }
  function Max(a: int, b: int): int { if a < b then b else a }

  /**
   * `slice(bytes, start, end)`: `end` is a length counted from `start`, or,
   * when negative, counted back from one past the end; the result is clamped
   * to the buffer.
   */
  function Slice(bytes: Bytes, start: int, end: int): (r: Bytes)
    requires 0 <= start <= |bytes|
    ensures end >= 0 ==> r == bytes[start..Min(start + end, |bytes|)]
    ensures end < 0 ==> r == bytes[start..Max(start, |bytes| + 1 + end)]
  {
    var e := (if end < 0 then |bytes| + 1 else start) + end;
    var e := Min(Max(e, start), |bytes|);
    bytes[start..e]
  }

  /** The default `end` of -1 keeps everything from `start` on. */
  lemma {:induction false} SliceRest(bytes: Bytes, start: int)
    requires 0 <= start <= |bytes|
    ensures Slice(bytes, start, -1) == bytes[start..]
  {
  }

  /** A `char` read as `int`: bytes from 128 up are negative. */
  function SignedChar(b: byte): (r: int)
    ensures -128 <= r < 128 && r % 256 == b as int
  {
    if b as int < 128 then b as int else b as int - 256
  }

  datatype FieldFlag = FieldFlag(flag: int, field: int, mode: int)

  /** `FieldFlag(int)`: `flag >> 3` (an arithmetic shift) and `flag & 0b111`. */
  function MakeFieldFlag(flag: int): (f: FieldFlag)
    ensures f.flag == flag && 0 <= f.mode < 8 && f.field * 8 + f.mode == flag
  {
    FieldFlag(flag, flag / 8, flag % 8)
  }

  /** The error `FieldFlag::New` reports; its text names the field and the mode. */
  datatype DecodeError = InvalidFlag(field: int, mode: int)

  /** `FieldFlag::New`: only the varint and length-delimited wire types are accepted. */
  function NewFieldFlag(b: int): (r: Result<FieldFlag, DecodeError>)
    ensures r.Ok? <==> (MakeFieldFlag(b).mode == TypeVarInt || MakeFieldFlag(b).mode == TypeLengthDelim)
    ensures r.Ok? ==> r.value == MakeFieldFlag(b)
    ensures r.Err? ==> r.error == InvalidFlag(MakeFieldFlag(b).field, MakeFieldFlag(b).mode)
  {
    var flag := MakeFieldFlag(b);
    if flag.mode != 0 && flag.mode != 2 then Err(InvalidFlag(flag.field, flag.mode)) else Ok(flag)
  }

  /** A tag the encoder writes for a field below 16 reads back as that field and wire type. */
  lemma {:induction false} NewFieldFlagOfTag(index: nat, wireType: nat)
    requires index < 16 && (wireType == WireTypeVarInt || wireType == WireTypeLengthDelimited)
    ensures NewFieldFlag(SignedChar(Tag(index, wireType))) == Ok(FieldFlag(index * 8 + wireType, index, wireType))
  {
  }

  /** 128^k, the weight of the k-th 7-bit group. */
  function Pow128(k: nat): (r: nat)
    ensures r >= 1
  {
    if k == 0 then 1 else 128 * Pow128(k - 1)
  }

  /** The number a varint at the front of bs stands for: its groups through the first terminator (all of bs if none). */
  function VarintValue(bs: Bytes): nat
  {
    GroupsValue(bs[..VarintLength(bs)])
  }

  lemma {:induction false} GroupsValueSnoc(bs: Bytes, b: byte)
    ensures GroupsValue(bs + [b]) == GroupsValue(bs) + (b as nat % 128) * Pow128(|bs|)
  {
    if bs != [] {
      assert (bs + [b])[1..] == bs[1..] + [b];
      GroupsValueSnoc(bs[1..], b);
      var g, w, p := b as nat % 128, GroupsValue(bs[1..]), Pow128(|bs| - 1);
      calc {
        GroupsValue(bs + [b]);
        bs[0] as nat % 128 + 128 * (w + g * p);
        { MulDistributes(128, w, g * p); MulAssociates(128, g, p); }
        bs[0] as nat % 128 + 128 * w + g * (128 * p);
      }
    } else {
      assert ([] + [b])[1..] == [];
    }
  }

  lemma {:induction false} MulDistributes(a: nat, b: nat, c: nat)
    ensures a * (b + c) == a * b + a * c
  {
  }

  lemma {:induction false} MulAssociates(a: nat, b: nat, c: nat)
    ensures a * (b * c) == b * (a * c)
  {
  }

  /** The prefix through the first terminator, at position k. */
  lemma {:induction false} VarintLengthTerminated(bs: Bytes, k: nat)
    requires k < |bs| && bs[k] as nat < HasMoreBytes
    requires forall j :: 0 <= j < k ==> bs[j] as nat >= HasMoreBytes
    ensures VarintLength(bs) == k + 1
  {
    if k > 0 {
      VarintLengthTerminated(bs[1..], k - 1);
    }
  }

  /** Without a terminator the prefix is the whole of bs. */
  lemma {:induction false} VarintLengthUnterminated(bs: Bytes)
    requires forall j :: 0 <= j < |bs| ==> bs[j] as nat >= HasMoreBytes
    ensures VarintLength(bs) == |bs|
  {
    if bs != [] {
      VarintLengthUnterminated(bs[1..]);
    }
  }

  /** The prefix through the first terminator decides the value; anything after it is ignored. */
  lemma {:induction false} VarintPrefix(bs: Bytes, m: nat)
    requires VarintLength(bs) <= m <= |bs|
    ensures VarintLength(bs[..m]) == VarintLength(bs)
    ensures VarintValue(bs[..m]) == VarintValue(bs)
  {
    if bs != [] && m > 0 && bs[0] as nat >= HasMoreBytes {
      VarintPrefix(bs[1..], m - 1);
      assert bs[..m][1..] == bs[1..][..m - 1];
    }
    assert bs[..m][..VarintLength(bs)] == bs[..VarintLength(bs)];
  }

  /** Reading back what the encoder wrote: a varint, then anything. */
  lemma {:induction false} ReadVarint(n: nat, rest: Bytes)
    ensures VarintLength(Varint(n) + rest) == |Varint(n)|
    ensures VarintValue(Varint(n) + rest) == n
  {
    VarintLengthOfVarint(n, rest);
    VarintCorrect(n);
  }

  /** `NumberWithSize`: a number and how many bytes it took. */
  datatype NumberWithSize = NumberWithSize(value: nat, offset: nat)

  /**
   * `get_number_with_size`: the varint at the front and its length.  The C++
   * loop reads one byte past the end of an unterminated varint; here it stops
   * at the end.
   */
  method GetNumberWithSize(bytes: Bytes) returns (r: NumberWithSize)
    ensures r == NumberWithSize(VarintValue(bytes), VarintLength(bytes))
  {
    if |bytes| == 0 {
      return NumberWithSize(0, 0);
    }
    var value := bytes[0] as nat % 128;
    var offset := 0;
    assert bytes[..1] == [] + [bytes[0]];
    GroupsValueSnoc([], bytes[0]);
    // `while (bytes[offset++] >= kHasMoreBytes)`: the post-increment is the final `offset + 1`.
    while bytes[offset] as nat >= HasMoreBytes && offset + 1 < |bytes|
      invariant 0 <= offset < |bytes|
      invariant forall j :: 0 <= j < offset ==> bytes[j] as nat >= HasMoreBytes
      invariant value == GroupsValue(bytes[..offset + 1])
      decreases |bytes| - offset
    {
      offset := offset + 1;
      assert bytes[..offset + 1] == bytes[..offset] + [bytes[offset]];
      GroupsValueSnoc(bytes[..offset], bytes[offset]);
      value := value + (bytes[offset] as nat % 128) * Pow128(offset);
    }
    if bytes[offset] as nat < HasMoreBytes {
      VarintLengthTerminated(bytes, offset);
    } else {
      VarintLengthUnterminated(bytes);
    }
    return NumberWithSize(value, offset + 1);
  }

  /** `get_number`: ORs in the 7-bit groups (disjoint, so an OR is a sum) and stops after the terminator. */
  method GetNumber(bytes: Bytes) returns (value: nat)
    ensures value == VarintValue(bytes)
  {
    value := 0;
    var i := 0;
    while i < |bytes|
      invariant 0 <= i <= |bytes|
      invariant forall j :: 0 <= j < i ==> bytes[j] as nat >= HasMoreBytes
      invariant value == GroupsValue(bytes[..i])
    {
      var b := bytes[i];
      assert bytes[..i + 1] == bytes[..i] + [b];
      GroupsValueSnoc(bytes[..i], b);
      value := value + (b as nat % 128) * Pow128(i);
      if b as nat < HasMoreBytes {
        VarintLengthTerminated(bytes, i);
        return;
      }
      i := i + 1;
    }
    VarintLengthUnterminated(bytes);
    assert bytes[..i] == bytes;
  }

  /** One number per terminated varint, in order; a trailing unterminated run yields nothing. */
  function Numbers(bs: Bytes): seq<nat>
    decreases |bs|
  {
    var k := VarintLength(bs);
    if k == 0 || bs[k - 1] as nat >= HasMoreBytes then [] else [VarintValue(bs)] + Numbers(bs[k..])
  }

  /** A run of continuation bytes from `start`, ended by a terminator at i, is one number. */
  lemma {:induction false} NumbersRun(bytes: Bytes, start: nat, i: nat)
    requires start <= i < |bytes| && bytes[i] as nat < HasMoreBytes
    requires forall j :: start <= j < i ==> bytes[j] as nat >= HasMoreBytes
    ensures Numbers(bytes[start..]) == [VarintValue(Slice(bytes, start, i + 1))] + Numbers(bytes[i + 1..])
  {
    var run := bytes[start..];
    VarintLengthTerminated(run, i - start);
    VarintPrefix(run, Min(i + 1, |run|));
    assert Slice(bytes, start, i + 1) == run[..Min(i + 1, |run|)];
    assert run[i - start + 1..] == bytes[i + 1..];
  }

  /** `get_numbers`: splits a packed field at each terminator. */
  method GetNumbers(bytes: Bytes) returns (numbers: seq<nat>)
    ensures numbers == Numbers(bytes)
  {
    numbers := [];
    var i, start := 0, 0;
    while i < |bytes|
      invariant 0 <= start <= i <= |bytes|
      invariant numbers + NumbersScan(bytes, start, i) == NumbersScan(bytes, 0, 0)
    {
      if bytes[i] as nat < HasMoreBytes {
        var n := GetNumber(Slice(bytes, start, i + 1));
        MoveHead(numbers, NumbersScan(bytes, start, i), n, NumbersScan(bytes, i + 1, i + 1), NumbersScan(bytes, 0, 0));
        numbers := numbers + [n];
        start := i + 1;
      }
      i := i + 1;
    }
    NumbersScanned(bytes);
  }

  /** What the scan of `get_numbers` still emits with the current run begun at start and the next byte at i. */
  function NumbersScan(bytes: Bytes, start: nat, i: nat): seq<nat>
    requires start <= i <= |bytes|
    decreases |bytes| - i
  {
    if i == |bytes| then []
    else if bytes[i] as nat < HasMoreBytes then [VarintValue(Slice(bytes, start, i + 1))] + NumbersScan(bytes, i + 1, i + 1)
    else NumbersScan(bytes, start, i + 1)
  }

  /** Mid-run, the scan emits the numbers of the bytes from where the run began. */
  lemma {:induction false} NumbersScanRun(bytes: Bytes, start: nat, i: nat)
    requires start <= i <= |bytes|
    requires forall j :: start <= j < i ==> bytes[j] as nat >= HasMoreBytes
    ensures NumbersScan(bytes, start, i) == Numbers(bytes[start..])
    decreases |bytes| - i
  {
    if i == |bytes| {
      NoTerminatorNoNumbers(bytes[start..]);
    } else if bytes[i] as nat < HasMoreBytes {
      NumbersScanRun(bytes, i + 1, i + 1);
      NumbersScanTerminator(bytes, start, i);
    } else {
      NumbersScanRun(bytes, start, i + 1);
    }
  }

  /** A terminator at i closes the run: its number, then the scan of what follows. */
  lemma {:induction false} NumbersScanTerminator(bytes: Bytes, start: nat, i: nat)
    requires start <= i < |bytes| && bytes[i] as nat < HasMoreBytes
    requires forall j :: start <= j < i ==> bytes[j] as nat >= HasMoreBytes
    requires NumbersScan(bytes, i + 1, i + 1) == Numbers(bytes[i + 1..])
    ensures NumbersScan(bytes, start, i) == Numbers(bytes[start..])
  {
    NumbersRun(bytes, start, i);
  }

  /** The whole scan emits exactly the numbers of the packed field. */
  lemma {:induction false} NumbersScanned(bytes: Bytes)
    ensures NumbersScan(bytes, 0, 0) == Numbers(bytes)
  {
    NumbersScanRun(bytes, 0, 0);
    assert bytes[0..] == bytes;
  }

  /** Moving the head of the numbers still to read onto the numbers read keeps the whole. */
  lemma {:induction false} MoveHead(read: seq<nat>, unread: seq<nat>, n: nat, tail: seq<nat>, all: seq<nat>)
    requires read + unread == all && unread == [n] + tail
    ensures (read + [n]) + tail == all
  {
    assert (read + [n]) + tail == read + ([n] + tail);
  }

  /** A trailing run of continuation bytes holds no number. */
  lemma {:induction false} NoTerminatorNoNumbers(bs: Bytes)
    requires forall j :: 0 <= j < |bs| ==> bs[j] as nat >= HasMoreBytes
    ensures Numbers(bs) == []
  {
    VarintLengthUnterminated(bs);
  }

  /** Packed varints split back into the numbers they encode. */
  lemma {:induction false} NumbersOfPacked(ns: seq<nat>)
    ensures Numbers(Packed(ns)) == ns
  {
    if ns != [] {
      var rest := Packed(ns[1..]);
      ReadVarint(ns[0], rest);
      VarintCorrect(ns[0]);
      var bs := Varint(ns[0]) + rest;
      assert bs[|Varint(ns[0])| - 1] == Varint(ns[0])[|Varint(ns[0])| - 1];
      assert bs[|Varint(ns[0])|..] == rest;
      NumbersOfPacked(ns[1..]);
    }
  }

  /** `Value`: a field's payload and the size of any length prefix before it. */
  datatype Value = Value(value: Bytes, offset: nat)

  /** What `get_value` returns for a wire type and the bytes after the tag. */
  function ValueOf(mode: int, bytes: Bytes): (v: Value)
    ensures v.offset + |v.value| <= |bytes|
    ensures v.value == bytes[v.offset..v.offset + |v.value|]
  {
    if mode == TypeVarInt then Value(bytes[..VarintLength(bytes)], 0)
    else if mode == TypeLengthDelim then
      var n := VarintLength(bytes);
      Value(Slice(bytes, n, VarintValue(bytes)), n)
    else Value(bytes, 0)
  }

  /** `get_value`: the varint through its terminator, or the length-prefixed payload (clamped to the buffer). */
  method GetValue(mode: int, bytes: Bytes) returns (v: Value)
    ensures v == ValueOf(mode, bytes)
  {
    match mode {
      case 0 =>
        var i := 0;
        while i < |bytes|
          invariant 0 <= i <= |bytes|
          invariant forall j :: 0 <= j < i ==> bytes[j] as nat >= HasMoreBytes
        {
          if bytes[i] as nat < HasMoreBytes {
            VarintLengthTerminated(bytes, i);
            return Value(Slice(bytes, 0, i + 1), 0);
          }
          i := i + 1;
        }
        VarintLengthUnterminated(bytes);
        return Value(bytes, 0);
      case 2 =>
        var n := GetNumberWithSize(bytes);
        return Value(Slice(bytes, n.offset, n.value), n.offset);
      case _ =>
        return Value(bytes, 0);
    }
  }

  /** A varint field's value is exactly the encoder's varint. */
  lemma {:induction false} ValueOfVarint(n: nat, rest: Bytes)
    ensures ValueOf(TypeVarInt, Varint(n) + rest) == Value(Varint(n), 0)
  {
    ReadVarint(n, rest);
  }

  /** A length-delimited field's value is exactly the payload the encoder wrote. */
  lemma {:induction false} ValueOfDelimited(p: Bytes, rest: Bytes)
    ensures ValueOf(TypeLengthDelim, Varint(|p|) + p + rest) == Value(p, |Varint(|p|)|)
  {
    var bs := Varint(|p|) + p + rest;
    assert bs == Varint(|p|) + (p + rest);
    ReadVarint(|p|, p + rest);
    assert bs[|Varint(|p|)|..|Varint(|p|)| + |p|] == p;
  }

  // ---------------------------------------------------------------------
  // The decoded structs: ids and string-table indices stay numbers.

  datatype ValueType = ValueType(typ: nat := 0, unit: nat := 0)

  datatype Label = Label(key: nat := 0, str: nat := 0, num: nat := 0, numUnit: nat := 0)

  datatype Sample = Sample(locationIds: seq<nat> := [], values: seq<nat> := [], labels: seq<Label> := [])

  datatype Mapping = Mapping(
    id: nat := 0,
    memoryStart: nat := 0,
    memoryLimit: nat := 0,
    fileOffset: nat := 0,
    filename: nat := 0,
    buildId: nat := 0,
    hasFunctions: bool := false,
    hasFilenames: bool := false,
    hasLineNumbers: bool := false,
    hasInlineFrames: bool := false)

  datatype Function = Function(id: nat := 0, name: nat := 0, systemName: nat := 0, filename: nat := 0, startLine: nat := 0)

  datatype Line = Line(functionId: nat := 0, lineNumber: nat := 0)

  datatype Location = Location(id: nat := 0, mappingId: nat := 0, address: nat := 0, lines: seq<Line> := [], isFolded: bool := false)

  datatype Profile = Profile(
    sampleTypes: seq<ValueType> := [],
    samples: seq<Sample> := [],
    mappings: seq<Mapping> := [],
    locations: seq<Location> := [],
    functions: seq<Function> := [],
    stringTable: seq<Bytes> := [],
    dropFrames: nat := 0,
    keepFrames: nat := 0,
    timeNanos: nat := 0,
    durationNanos: nat := 0,
    periodType: ValueType := ValueType(),
    period: nat := 0,
    comment: seq<nat> := [],
    defaultSampleType: nat := 0)

  /**
   * The `while (index < bytes.size())` loop of every `decode`: read a tag
   * (failing on a bad wire type), take the value `get_value` finds after it,
   * apply the struct's update for that field (which may fail for a nested
   * message), and go on after the value and its length prefix.
   */
  function DecodeFields<T>(acc: T, bytes: Bytes, apply: (T, int, Bytes) -> Result<T, DecodeError>): Result<T, DecodeError>
    decreases |bytes|, 1
  {
    if bytes == [] then Ok(acc)
    else
      match NewFieldFlag(SignedChar(bytes[0]))
      case Err(e) => Err(e)
      case Ok(flag) => DecodeFieldValue(acc, flag, bytes[1..], apply)
  }

  /** The rest of one turn after a good flag: take the value, apply it, and go on after it. */
  function DecodeFieldValue<T>(acc: T, flag: FieldFlag, bytes: Bytes, apply: (T, int, Bytes) -> Result<T, DecodeError>): Result<T, DecodeError>
    decreases |bytes| + 1, 0
  {
    var v := ValueOf(flag.mode, bytes);
    match apply(acc, flag.field, v.value)
    case Err(e) => Err(e)
    case Ok(next) => DecodeFields(next, bytes[|v.value| + v.offset..], apply)
  }

  /** A non-zero number read into a `bool` field is true. */
  function IsSet(value: Bytes): bool
  {
    VarintValue(value) != 0
  }

  function ValueTypeField(v: ValueType, field: int, value: Bytes): Result<ValueType, DecodeError>
  {
    match field
    case 1 => Ok(v.(typ := VarintValue(value)))
    case 2 => Ok(v.(unit := VarintValue(value)))
    case _ => Ok(v)
  }

  function LabelField(l: Label, field: int, value: Bytes): Result<Label, DecodeError>
  {
    match field
    case 1 => Ok(l.(key := VarintValue(value)))
    case 2 => Ok(l.(str := VarintValue(value)))
    case 3 => Ok(l.(num := VarintValue(value)))
    case 4 => Ok(l.(numUnit := VarintValue(value)))
    case _ => Ok(l)
  }

  function SampleField(s: Sample, field: int, value: Bytes): Result<Sample, DecodeError>
  {
    match field
    case 1 => Ok(s.(locationIds := Numbers(value)))
    case 2 => Ok(s.(values := Numbers(value)))
    case 3 =>
      (match DecodeFields(Label(), value, LabelField)
       case Err(e) => Err(e)
       case Ok(l) => Ok(s.(labels := s.labels + [l])))
    case _ => Ok(s)
  }

  function MappingField(m: Mapping, field: int, value: Bytes): Result<Mapping, DecodeError>
  {
    match field
    case 1 => Ok(m.(id := VarintValue(value)))
    case 2 => Ok(m.(memoryStart := VarintValue(value)))
    case 3 => Ok(m.(memoryLimit := VarintValue(value)))
    case 4 => Ok(m.(fileOffset := VarintValue(value)))
    case 5 => Ok(m.(filename := VarintValue(value)))
    case 6 => Ok(m.(buildId := VarintValue(value)))
    case 7 => Ok(m.(hasFunctions := IsSet(value)))
    case 8 => Ok(m.(hasFilenames := IsSet(value)))
    case 9 => Ok(m.(hasLineNumbers := IsSet(value)))
    case 10 => Ok(m.(hasInlineFrames := IsSet(value)))
    case _ => Ok(m)
  }

  function FunctionField(f: Function, field: int, value: Bytes): Result<Function, DecodeError>
  {
    match field
    case 1 => Ok(f.(id := VarintValue(value)))
    case 2 => Ok(f.(name := VarintValue(value)))
    case 3 => Ok(f.(systemName := VarintValue(value)))
    case 4 => Ok(f.(filename := VarintValue(value)))
    case 5 => Ok(f.(startLine := VarintValue(value)))
    case _ => Ok(f)
  }

  function LineField(l: Line, field: int, value: Bytes): Result<Line, DecodeError>
  {
    match field
    case 1 => Ok(l.(functionId := VarintValue(value)))
    case 2 => Ok(l.(lineNumber := VarintValue(value)))
    case _ => Ok(l)
  }

  function LocationField(l: Location, field: int, value: Bytes): Result<Location, DecodeError>
  {
    match field
    case 1 => Ok(l.(id := VarintValue(value)))
    case 2 => Ok(l.(mappingId := VarintValue(value)))
    case 3 => Ok(l.(address := VarintValue(value)))
    case 4 =>
      (match DecodeFields(Line(), value, LineField)
       case Err(e) => Err(e)
       case Ok(line) => Ok(l.(lines := l.lines + [line])))
    case 5 => Ok(l.(isFolded := IsSet(value)))
    case _ => Ok(l)
  }

  function ProfileField(p: Profile, field: int, value: Bytes): Result<Profile, DecodeError>
  {
    match field
    case 1 =>
      (match DecodeFields(ValueType(), value, ValueTypeField)
       case Err(e) => Err(e)
       case Ok(v) => Ok(p.(sampleTypes := p.sampleTypes + [v])))
    case 2 =>
      (match DecodeFields(Sample(), value, SampleField)
       case Err(e) => Err(e)
       case Ok(s) => Ok(p.(samples := p.samples + [s])))
    case 3 =>
      (match DecodeFields(Mapping(), value, MappingField)
       case Err(e) => Err(e)
       case Ok(m) => Ok(p.(mappings := p.mappings + [m])))
    case 4 =>
      (match DecodeFields(Location(), value, LocationField)
       case Err(e) => Err(e)
       case Ok(l) => Ok(p.(locations := p.locations + [l])))
    case 5 =>
      (match DecodeFields(Function(), value, FunctionField)
       case Err(e) => Err(e)
       case Ok(f) => Ok(p.(functions := p.functions + [f])))
    case 6 => Ok(p.(stringTable := p.stringTable + [value]))
    case 7 => Ok(p.(dropFrames := VarintValue(value)))
    case 8 => Ok(p.(keepFrames := VarintValue(value)))
    case 9 => Ok(p.(timeNanos := VarintValue(value)))
    case 10 => Ok(p.(durationNanos := VarintValue(value)))
    case 11 =>
      (match DecodeFields(ValueType(), value, ValueTypeField)
       case Err(e) => Err(e)
       case Ok(v) => Ok(p.(periodType := v)))
    case 12 => Ok(p.(period := VarintValue(value)))
    case 13 => Ok(p.(comment := p.comment + [VarintValue(value)]))
    case 14 => Ok(p.(defaultSampleType := VarintValue(value)))
    case _ => Ok(p)
  }

  // ---------------------------------------------------------------------
  // The `decode` loops, one per struct.

  /** One turn of a decode loop that reads a good tag and a field that updates cleanly. */
  lemma {:induction false} DecodeStep<T>(acc: T, bytes: Bytes, index: nat, apply: (T, int, Bytes) -> Result<T, DecodeError>,
                      flag: FieldFlag, v: Value, next: T)
    requires index < |bytes| && NewFieldFlag(SignedChar(bytes[index])) == Ok(flag)
    requires v == ValueOf(flag.mode, bytes[index + 1..]) && apply(acc, flag.field, v.value) == Ok(next)
    ensures index + 1 + |v.value| + v.offset <= |bytes|
    ensures DecodeFields(acc, bytes[index..], apply) == DecodeFields(next, bytes[index + 1 + |v.value| + v.offset..], apply)
  {
    var rest := bytes[index + 1..];
    DecodeFieldsOpen(acc, bytes, index, apply, flag);
    DecodeFieldValueOpen(acc, flag, rest, apply, v, next);
    assert rest[|v.value| + v.offset..] == bytes[index + 1 + |v.value| + v.offset..];
  }

  /** A good tag hands the bytes after it to the rest of the turn. */
  lemma {:induction false} DecodeFieldsOpen<T>(acc: T, bytes: Bytes, index: nat, apply: (T, int, Bytes) -> Result<T, DecodeError>, flag: FieldFlag)
    requires index < |bytes| && NewFieldFlag(SignedChar(bytes[index])) == Ok(flag)
    ensures DecodeFields(acc, bytes[index..], apply) == DecodeFieldValue(acc, flag, bytes[index + 1..], apply)
  {
    assert bytes[index..][1..] == bytes[index + 1..];
  }

  /** The value read after a good tag, applied cleanly, leaves the loop at the bytes after it. */
  lemma {:induction false} DecodeFieldValueOpen<T>(acc: T, flag: FieldFlag, bytes: Bytes, apply: (T, int, Bytes) -> Result<T, DecodeError>, v: Value, next: T)
    requires v == ValueOf(flag.mode, bytes) && apply(acc, flag.field, v.value) == Ok(next)
    ensures DecodeFieldValue(acc, flag, bytes, apply) == DecodeFields(next, bytes[|v.value| + v.offset..], apply)
  {
  }

  /** A bad tag ends the loop with its error. */
  lemma {:induction false} DecodeFlagError<T>(acc: T, bytes: Bytes, index: nat, apply: (T, int, Bytes) -> Result<T, DecodeError>)
    requires index < |bytes| && NewFieldFlag(SignedChar(bytes[index])).Err?
    ensures DecodeFields(acc, bytes[index..], apply) == Err(NewFieldFlag(SignedChar(bytes[index])).error)
  {
  }

  /** A nested message that fails to decode ends the loop with its error. */
  lemma {:induction false} DecodeNestedError<T>(acc: T, bytes: Bytes, index: nat, apply: (T, int, Bytes) -> Result<T, DecodeError>,
                             flag: FieldFlag, v: Value)
    requires index < |bytes| && NewFieldFlag(SignedChar(bytes[index])) == Ok(flag)
    requires v == ValueOf(flag.mode, bytes[index + 1..]) && apply(acc, flag.field, v.value).Err?
    ensures DecodeFields(acc, bytes[index..], apply) == Err(apply(acc, flag.field, v.value).error)
  {
    DecodeFieldsOpen(acc, bytes, index, apply, flag);
  }

  /** `ValueType::decode`. */
  method DecodeValueType(bytes: Bytes) returns (r: Result<ValueType, DecodeError>)
    ensures r == DecodeFields(ValueType(), bytes, ValueTypeField)
  {
    var valueType := ValueType();
    var index := 0;
    while index < |bytes|
      invariant 0 <= index <= |bytes|
      invariant DecodeFields(valueType, bytes[index..], ValueTypeField) == DecodeFields(ValueType(), bytes, ValueTypeField)
      decreases |bytes| - index
    {
      var flagResult := NewFieldFlag(SignedChar(bytes[index]));
      if flagResult.Err? {
        DecodeFlagError(valueType, bytes, index, ValueTypeField);
        return Err(flagResult.error);
      }
      var flag := flagResult.value;
      ghost var at, before := index, valueType;
      index := index + 1;

      var value := GetValue(flag.mode, bytes[index..]);
      index := index + |value.value| + value.offset;

      match flag.field {
        case 1 =>
          var n := GetNumber(value.value);
          valueType := valueType.(typ := n);
        case 2 =>
          var n := GetNumber(value.value);
          valueType := valueType.(unit := n);
        case _ =>
      }
      DecodeStep(before, bytes, at, ValueTypeField, flag, value, valueType);
    }
    return Ok(valueType);
  }

  /** `Label::decode`. */
  method DecodeLabel(bytes: Bytes) returns (r: Result<Label, DecodeError>)
    ensures r == DecodeFields(Label(), bytes, LabelField)
  {
    var lbl := Label();
    var index := 0;
    while index < |bytes|
      invariant 0 <= index <= |bytes|
      invariant DecodeFields(lbl, bytes[index..], LabelField) == DecodeFields(Label(), bytes, LabelField)
      decreases |bytes| - index
    {
      var flagResult := NewFieldFlag(SignedChar(bytes[index]));
      if flagResult.Err? {
        DecodeFlagError(lbl, bytes, index, LabelField);
        return Err(flagResult.error);
      }
      var flag := flagResult.value;
      ghost var at, before := index, lbl;
      index := index + 1;

      var value := GetValue(flag.mode, bytes[index..]);
      index := index + |value.value| + value.offset;

      match flag.field {
        case 1 =>
          var n := GetNumber(value.value);
          lbl := lbl.(key := n);
        case 2 =>
          var n := GetNumber(value.value);
          lbl := lbl.(str := n);
        case 3 =>
          var n := GetNumber(value.value);
          lbl := lbl.(num := n);
        case 4 =>
          var n := GetNumber(value.value);
          lbl := lbl.(numUnit := n);
        case _ =>
      }
      DecodeStep(before, bytes, at, LabelField, flag, value, lbl);
    }
    return Ok(lbl);
  }

  /** `Sample::decode`: packed ids and values replace, labels append. */
  method DecodeSample(bytes: Bytes) returns (r: Result<Sample, DecodeError>)
    ensures r == DecodeFields(Sample(), bytes, SampleField)
  {
    var sample := Sample();
    var index := 0;
    while index < |bytes|
      invariant 0 <= index <= |bytes|
      invariant DecodeFields(sample, bytes[index..], SampleField) == DecodeFields(Sample(), bytes, SampleField)
      decreases |bytes| - index
    {
      var flagResult := NewFieldFlag(SignedChar(bytes[index]));
      if flagResult.Err? {
        DecodeFlagError(sample, bytes, index, SampleField);
        return Err(flagResult.error);
      }
      var flag := flagResult.value;
      ghost var at, before := index, sample;
      index := index + 1;

      var value := GetValue(flag.mode, bytes[index..]);
      index := index + |value.value| + value.offset;

      match flag.field {
        case 1 =>
          var ns := GetNumbers(value.value);
          sample := sample.(locationIds := ns);
        case 2 =>
          var ns := GetNumbers(value.value);
          sample := sample.(values := ns);
        case 3 =>
          var result := DecodeLabel(value.value);
          if result.Err? {
            DecodeNestedError(before, bytes, at, SampleField, flag, value);
            return Err(result.error);
          }
          sample := sample.(labels := sample.labels + [result.value]);
        case _ =>
      }
      DecodeStep(before, bytes, at, SampleField, flag, value, sample);
    }
    return Ok(sample);
  }

  /** `Mapping::decode`. */
  method DecodeMapping(bytes: Bytes) returns (r: Result<Mapping, DecodeError>)
    ensures r == DecodeFields(Mapping(), bytes, MappingField)
  {
    var mapping := Mapping();
    var index := 0;
    while index < |bytes|
      invariant 0 <= index <= |bytes|
      invariant DecodeFields(mapping, bytes[index..], MappingField) == DecodeFields(Mapping(), bytes, MappingField)
      decreases |bytes| - index
    {
      var flagResult := NewFieldFlag(SignedChar(bytes[index]));
      if flagResult.Err? {
        DecodeFlagError(mapping, bytes, index, MappingField);
        return Err(flagResult.error);
      }
      var flag := flagResult.value;
      ghost var at, before := index, mapping;
      index := index + 1;

      var value := GetValue(flag.mode, bytes[index..]);
      index := index + |value.value| + value.offset;

      match flag.field {
        case 1 =>
          var n := GetNumber(value.value);
          mapping := mapping.(id := n);
        case 2 =>
          var n := GetNumber(value.value);
          mapping := mapping.(memoryStart := n);
        case 3 =>
          var n := GetNumber(value.value);
          mapping := mapping.(memoryLimit := n);
        case 4 =>
          var n := GetNumber(value.value);
          mapping := mapping.(fileOffset := n);
        case 5 =>
          var n := GetNumber(value.value);
          mapping := mapping.(filename := n);
        case 6 =>
          var n := GetNumber(value.value);
          mapping := mapping.(buildId := n);
        case 7 =>
          var n := GetNumber(value.value);
          mapping := mapping.(hasFunctions := n != 0);
        case 8 =>
          var n := GetNumber(value.value);
          mapping := mapping.(hasFilenames := n != 0);
        case 9 =>
          var n := GetNumber(value.value);
          mapping := mapping.(hasLineNumbers := n != 0);
        case 10 =>
          var n := GetNumber(value.value);
          mapping := mapping.(hasInlineFrames := n != 0);
        case _ =>
      }
      DecodeStep(before, bytes, at, MappingField, flag, value, mapping);
    }
    return Ok(mapping);
  }

  /** `Function::decode`. */
  method DecodeFunction(bytes: Bytes) returns (r: Result<Function, DecodeError>)
    ensures r == DecodeFields(Function(), bytes, FunctionField)
  {
    var func := Function();
    var index := 0;
    while index < |bytes|
      invariant 0 <= index <= |bytes|
      invariant DecodeFields(func, bytes[index..], FunctionField) == DecodeFields(Function(), bytes, FunctionField)
      decreases |bytes| - index
    {
      var flagResult := NewFieldFlag(SignedChar(bytes[index]));
      if flagResult.Err? {
        DecodeFlagError(func, bytes, index, FunctionField);
        return Err(flagResult.error);
      }
      var flag := flagResult.value;
      ghost var at, before := index, func;
      index := index + 1;

      var value := GetValue(flag.mode, bytes[index..]);
      index := index + |value.value| + value.offset;

      match flag.field {
        case 1 =>
          var n := GetNumber(value.value);
          func := func.(id := n);
        case 2 =>
          var n := GetNumber(value.value);
          func := func.(name := n);
        case 3 =>
          var n := GetNumber(value.value);
          func := func.(systemName := n);
        case 4 =>
          var n := GetNumber(value.value);
          func := func.(filename := n);
        case 5 =>
          var n := GetNumber(value.value);
          func := func.(startLine := n);
        case _ =>
      }
      DecodeStep(before, bytes, at, FunctionField, flag, value, func);
    }
    return Ok(func);
  }

  /** `Line::decode`. */
  method DecodeLine(bytes: Bytes) returns (r: Result<Line, DecodeError>)
    ensures r == DecodeFields(Line(), bytes, LineField)
  {
    var line := Line();
    var index := 0;
    while index < |bytes|
      invariant 0 <= index <= |bytes|
      invariant DecodeFields(line, bytes[index..], LineField) == DecodeFields(Line(), bytes, LineField)
      decreases |bytes| - index
    {
      var flagResult := NewFieldFlag(SignedChar(bytes[index]));
      if flagResult.Err? {
        DecodeFlagError(line, bytes, index, LineField);
        return Err(flagResult.error);
      }
      var flag := flagResult.value;
      ghost var at, before := index, line;
      index := index + 1;

      var value := GetValue(flag.mode, bytes[index..]);
      index := index + |value.value| + value.offset;

      match flag.field {
        case 1 =>
          var n := GetNumber(value.value);
          line := line.(functionId := n);
        case 2 =>
          var n := GetNumber(value.value);
          line := line.(lineNumber := n);
        case _ =>
      }
      DecodeStep(before, bytes, at, LineField, flag, value, line);
    }
    return Ok(line);
  }

  /** `Location::decode`: lines append. */
  method DecodeLocation(bytes: Bytes) returns (r: Result<Location, DecodeError>)
    ensures r == DecodeFields(Location(), bytes, LocationField)
  {
    var location := Location();
    var index := 0;
    while index < |bytes|
      invariant 0 <= index <= |bytes|
      invariant DecodeFields(location, bytes[index..], LocationField) == DecodeFields(Location(), bytes, LocationField)
      decreases |bytes| - index
    {
      var flagResult := NewFieldFlag(SignedChar(bytes[index]));
      if flagResult.Err? {
        DecodeFlagError(location, bytes, index, LocationField);
        return Err(flagResult.error);
      }
      var flag := flagResult.value;
      ghost var at, before := index, location;
      index := index + 1;

      var value := GetValue(flag.mode, bytes[index..]);
      index := index + |value.value| + value.offset;

      match flag.field {
        case 1 =>
          var n := GetNumber(value.value);
          location := location.(id := n);
        case 2 =>
          var n := GetNumber(value.value);
          location := location.(mappingId := n);
        case 3 =>
          var n := GetNumber(value.value);
          location := location.(address := n);
        case 4 =>
          var result := DecodeLine(value.value);
          if result.Err? {
            DecodeNestedError(before, bytes, at, LocationField, flag, value);
            return Err(result.error);
          }
          location := location.(lines := location.lines + [result.value]);
        case 5 =>
          var n := GetNumber(value.value);
          location := location.(isFolded := n != 0);
        case _ =>
      }
      DecodeStep(before, bytes, at, LocationField, flag, value, location);
    }
    return Ok(location);
  }

  /** `Profile::decode`: repeated fields append in wire order, the rest are set. */
  method DecodeProfile(bytes: Bytes) returns (r: Result<Profile, DecodeError>)
    ensures r == DecodeFields(Profile(), bytes, ProfileField)
  {
    var profile := Profile();
    var index := 0;
    while index < |bytes|
      invariant 0 <= index <= |bytes|
      invariant DecodeFields(profile, bytes[index..], ProfileField) == DecodeFields(Profile(), bytes, ProfileField)
      decreases |bytes| - index
    {
      var flagResult := NewFieldFlag(SignedChar(bytes[index]));
      if flagResult.Err? {
        DecodeFlagError(profile, bytes, index, ProfileField);
        return Err(flagResult.error);
      }
      var flag := flagResult.value;
      ghost var at, before := index, profile;
      index := index + 1;

      var value := GetValue(flag.mode, bytes[index..]);
      index := index + |value.value| + value.offset;

      match flag.field {
        case 1 =>
          var result := DecodeValueType(value.value);
          if result.Err? {
            DecodeNestedError(before, bytes, at, ProfileField, flag, value);
            return Err(result.error);
          }
          profile := profile.(sampleTypes := profile.sampleTypes + [result.value]);
        case 2 =>
          var result := DecodeSample(value.value);
          if result.Err? {
            DecodeNestedError(before, bytes, at, ProfileField, flag, value);
            return Err(result.error);
          }
          profile := profile.(samples := profile.samples + [result.value]);
        case 3 =>
          var result := DecodeMapping(value.value);
          if result.Err? {
            DecodeNestedError(before, bytes, at, ProfileField, flag, value);
            return Err(result.error);
          }
          profile := profile.(mappings := profile.mappings + [result.value]);
        case 4 =>
          var result := DecodeLocation(value.value);
          if result.Err? {
            DecodeNestedError(before, bytes, at, ProfileField, flag, value);
            return Err(result.error);
          }
          profile := profile.(locations := profile.locations + [result.value]);
        case 5 =>
          var result := DecodeFunction(value.value);
          if result.Err? {
            DecodeNestedError(before, bytes, at, ProfileField, flag, value);
            return Err(result.error);
          }
          profile := profile.(functions := profile.functions + [result.value]);
        case 6 =>
          profile := profile.(stringTable := profile.stringTable + [value.value]);
        case 7 =>
          var n := GetNumber(value.value);
          profile := profile.(dropFrames := n);
        case 8 =>
          var n := GetNumber(value.value);
          profile := profile.(keepFrames := n);
        case 9 =>
          var n := GetNumber(value.value);
          profile := profile.(timeNanos := n);
        case 10 =>
          var n := GetNumber(value.value);
          profile := profile.(durationNanos := n);
        case 11 =>
          var result := DecodeValueType(value.value);
          if result.Err? {
            DecodeNestedError(before, bytes, at, ProfileField, flag, value);
            return Err(result.error);
          }
          profile := profile.(periodType := result.value);
        case 12 =>
          var n := GetNumber(value.value);
          profile := profile.(period := n);
        case 13 =>
          var n := GetNumber(value.value);
          profile := profile.(comment := profile.comment + [n]);
        case 14 =>
          var n := GetNumber(value.value);
          profile := profile.(defaultSampleType := n);
        case _ =>
      }
      DecodeStep(before, bytes, at, ProfileField, flag, value, profile);
    }
    return Ok(profile);
  }
}
