/**
 * The TypeScript reference decoder of the tests (ts/test/decode.ts): a
 * hand-written protobuf reader with one class per pprof message.  Every
 * class's `decode` runs the same loop over its buffer (split the next byte
 * into a field flag, take the value `getValue` finds after it, advance the
 * index past it, let the class's `decodeValue` store it), so the loop is
 * modelled once, generic in the class's `decodeValue`.
 *
 * A decoded record starts from the defaults its class's constructor fills
 * in (`|| 0`, `|| BigInt(0)`, `!!`), so the constructor leaves it as it is;
 * a list field nobody wrote stays undefined (None).
 */
module TsDecoder {
  import opened Bytes
  import opened Wire
  import opened Wrappers
  import C = CppDecoder

  const TypeMask: nat := 7
  const TypeVarInt: nat := 0
  const TypeLengthDelim: nat := 2

  datatype FieldFlag = FieldFlag(field: nat, mode: nat)

  /** `decodeFieldFlag`: the field number `value >> 3` and the wire type `value & kTypeMask`. */
  function DecodeFieldFlag(value: byte): (f: FieldFlag)
    ensures f.mode <= TypeMask && f.field * 8 + f.mode == value as nat
  {
    FieldFlag(value as nat / 8, value as nat % 8)
  }

  /** The byte the encoder writes as a tag splits back into its field number and wire type. */
  lemma {:induction false} FieldFlagOfTag(index: nat, wireType: nat)
    requires index < 32 && wireType <= TypeMask
    ensures DecodeFieldFlag(Tag(index, wireType)) == FieldFlag(index, wireType)
  {
    var f := DecodeFieldFlag(Tag(index, wireType));
    assert f.field * 8 + f.mode == index * 8 + wireType;
  }

  // ---------------------------------------------------------------------
  // Numbers.

  /**
   * `decodeBigNumber`: the low seven bits of every byte, the i-th at shift
   * 7 * i, with no stop at a terminator.  Each group lands on bits that no
   * earlier group touched, so the source's `|=` is the `+` written here.
   */
  method DecodeBigNumber(buffer: Bytes) returns (value: nat)
    ensures value == GroupsValue(buffer)
  {
    value := 0;
    for i := 0 to |buffer|
      invariant value == GroupsValue(buffer[..i])
    {
      C.GroupsValueSnoc(buffer[..i], buffer[i]);
      assert buffer[..i + 1] == buffer[..i] + [buffer[i]];
      value := value + (buffer[i] as nat % 128) * C.Pow128(i);
    }
    assert buffer[..|buffer|] == buffer;
  }

  /** `decodeNumber`: `decodeBigNumber` converted to a JavaScript number. */
  function DecodeNumber(buffer: Bytes): (r: nat)
    ensures IsVarint(buffer) ==> r == C.VarintValue(buffer)
  {
    if IsVarint(buffer) then
      C.VarintLengthTerminated(buffer, |buffer| - 1);
      assert buffer[..|buffer|] == buffer;
      GroupsValue(buffer)
    else GroupsValue(buffer)
  }

  /** `!!decodeNumber(buffer)`: a boolean field is set by any non-zero number. */
  function DecodeFlag(buffer: Bytes): bool
  {
    DecodeNumber(buffer) != 0
  }

  /** A run of continuation bytes ended by a terminator holds exactly one varint. */
  lemma {:induction false} RunValue(buffer: Bytes, start: nat, i: nat)
    requires start <= i < |buffer| && buffer[i] as nat < HasMoreBytes
    requires forall j :: start <= j < i ==> buffer[j] as nat >= HasMoreBytes
    ensures GroupsValue(buffer[start..i + 1]) == C.VarintValue(C.Slice(buffer, start, i + 1))
  {
    var run := buffer[start..];
    C.VarintLengthTerminated(run, i - start);
    var m := C.Min(start + i + 1, |buffer|);
    C.VarintPrefix(run, m - start);
    assert C.Slice(buffer, start, i + 1) == run[..m - start];
    assert run[..i - start + 1] == buffer[start..i + 1];
  }

  /**
   * `decodeBigNumbers`: one number per byte whose high bit is clear, built
   * from the bytes since the previous such byte; a trailing unterminated run
   * yields nothing.  These are the numbers the C++ test decoder's
   * `get_numbers` splits out of the same bytes.
   */
  method DecodeBigNumbers(buffer: Bytes) returns (values: seq<nat>)
    ensures values == C.Numbers(buffer)
  {
    values := [];
    var start, i := 0, 0;
    while i < |buffer|
      invariant 0 <= start <= i <= |buffer|
      invariant values + BigNumbersScan(buffer, start, i) == BigNumbersScan(buffer, 0, 0)
    {
      if buffer[i] as nat < HasMoreBytes {
        var n := DecodeBigNumber(buffer[start..i + 1]);
        C.MoveHead(values, BigNumbersScan(buffer, start, i), n, BigNumbersScan(buffer, i + 1, i + 1), BigNumbersScan(buffer, 0, 0));
        values := values + [n];
        start := i + 1;
      }
      i := i + 1;
    }
    BigNumbersScanned(buffer);
  }

  /** What the scan of `decodeBigNumbers` still yields with the current run begun at start and the next byte at i. */
  function BigNumbersScan(buffer: Bytes, start: nat, i: nat): seq<nat>
    requires start <= i <= |buffer|
    decreases |buffer| - i
  {
    if i == |buffer| then []
    else if buffer[i] as nat < HasMoreBytes then [GroupsValue(buffer[start..i + 1])] + BigNumbersScan(buffer, i + 1, i + 1)
    else BigNumbersScan(buffer, start, i + 1)
  }

  /** Mid-run, the scan yields the numbers of the bytes from where the run began. */
  lemma {:induction false} BigNumbersScanRun(buffer: Bytes, start: nat, i: nat)
    requires start <= i <= |buffer|
    requires forall j :: start <= j < i ==> buffer[j] as nat >= HasMoreBytes
    ensures BigNumbersScan(buffer, start, i) == C.Numbers(buffer[start..])
    decreases |buffer| - i
  {
    if i == |buffer| {
      C.NoTerminatorNoNumbers(buffer[start..]);
    } else if buffer[i] as nat < HasMoreBytes {
      BigNumbersScanRun(buffer, i + 1, i + 1);
      BigNumbersScanTerminator(buffer, start, i);
    } else {
      BigNumbersScanRun(buffer, start, i + 1);
    }
  }

  /** A terminator at i closes the run: its number, then the scan of what follows. */
  lemma {:induction false} BigNumbersScanTerminator(buffer: Bytes, start: nat, i: nat)
    requires start <= i < |buffer| && buffer[i] as nat < HasMoreBytes
    requires forall j :: start <= j < i ==> buffer[j] as nat >= HasMoreBytes
    requires BigNumbersScan(buffer, i + 1, i + 1) == C.Numbers(buffer[i + 1..])
    ensures BigNumbersScan(buffer, start, i) == C.Numbers(buffer[start..])
  {
    C.NumbersRun(buffer, start, i);
    RunValue(buffer, start, i);
  }

  /** The whole scan yields the numbers the C++ test decoder splits out of the same bytes. */
  lemma {:induction false} BigNumbersScanned(buffer: Bytes)
    ensures BigNumbersScan(buffer, 0, 0) == C.Numbers(buffer)
  {
    BigNumbersScanRun(buffer, 0, 0);
    assert buffer[0..] == buffer;
  }

  // ---------------------------------------------------------------------
  // Values.

  /** The one error: `getValue` throws on a wire type other than 0 and 2. */
  datatype DecodeError = UnrecognizedValueType(mode: nat)

  /**
   * `getValue` as written: a varint is the prefix through its first
   * terminator (the whole buffer if there is none); a length-delimited value
   * takes its length from the single byte `buffer[0]`, and the decode loop
   * then skips exactly one byte of prefix.  An empty buffer gives an empty
   * value (`buffer[0] + 1` is NaN, which `slice` reads as 0).  The value is
   * paired with the prefix the loop skips.
   */
  function GetValueAsWritten(mode: nat, buffer: Bytes): (r: Result<C.Value, DecodeError>)
    ensures r.Err? <==> mode != TypeVarInt && mode != TypeLengthDelim
    ensures r.Err? ==> r.error == UnrecognizedValueType(mode)
    ensures r.Ok? ==> r.value.offset == if mode == TypeLengthDelim then 1 else 0
    ensures r.Ok? && buffer != [] ==> r.value.offset + |r.value.value| <= |buffer|
    ensures r.Ok? && buffer != [] ==> r.value.value == buffer[r.value.offset..r.value.offset + |r.value.value|]
    ensures mode == TypeLengthDelim && buffer != [] ==> |r.value.value| == C.Min(buffer[0] as nat, |buffer| - 1)
    ensures mode == TypeVarInt ==> r == GetValue(mode, buffer)
  {
    if mode == TypeVarInt then Ok(C.Value(buffer[..VarintLength(buffer)], 0))
    else if mode == TypeLengthDelim then
      if buffer == [] then Ok(C.Value([], 1))
      else Ok(C.Value(buffer[1..C.Min(buffer[0] as nat + 1, |buffer|)], 1))
    else Err(UnrecognizedValueType(mode))
  }

  /**
   * `getValue` with the length read as a varint, as the C++ test decoder's
   * `get_value` reads it, and the loop skipping that whole prefix: the value
   * the decode loop uses.
   */
  function GetValue(mode: nat, buffer: Bytes): (r: Result<C.Value, DecodeError>)
    ensures r.Err? <==> mode != TypeVarInt && mode != TypeLengthDelim
    ensures r.Err? ==> r.error == UnrecognizedValueType(mode)
    ensures r.Ok? ==> r.value.offset + |r.value.value| <= |buffer|
    ensures r.Ok? ==> r.value.value == buffer[r.value.offset..r.value.offset + |r.value.value|]
  {
    if mode == TypeVarInt || mode == TypeLengthDelim then Ok(C.ValueOf(mode, buffer))
    else Err(UnrecognizedValueType(mode))
  }

  /** A varint field's value is exactly the encoder's varint. */
  lemma {:induction false} GetValueVarint(n: nat, rest: Bytes)
    ensures GetValue(TypeVarInt, Varint(n) + rest) == Ok(C.Value(Varint(n), 0))
  {
    C.ValueOfVarint(n, rest);
  }

  /** A length-delimited field's value is exactly the payload, after a prefix of the length's varint size. */
  lemma {:induction false} GetValueDelimited(p: Bytes, rest: Bytes)
    ensures GetValue(TypeLengthDelim, Varint(|p|) + p + rest) == Ok(C.Value(p, |Varint(|p|)|))
  {
    C.ValueOfDelimited(p, rest);
  }

  /** As written, a payload shorter than 128 bytes is read right: its length fits one byte. */
  lemma {:induction false} OneByteLengthShortPayload(p: Bytes, rest: Bytes)
    requires |p| < 128
    ensures GetValueAsWritten(TypeLengthDelim, Varint(|p|) + p + rest) == Ok(C.Value(p, 1))
    ensures GetValueAsWritten(TypeLengthDelim, Varint(|p|) + p + rest) == GetValue(TypeLengthDelim, Varint(|p|) + p + rest)
  {
    var buffer := Varint(|p|) + p + rest;
    assert Varint(|p|) == [|p| as byte];
    assert buffer[1..|p| + 1] == p;
    GetValueDelimited(p, rest);
  }

  /**
   * As written, a payload of 128 bytes or more is mis-split: the first
   * length byte carries the continuation bit, the value taken is at most
   * that byte's worth, and the loop resumes strictly inside the payload.
   */
  lemma {:induction false} OneByteLengthMisreads(p: Bytes, rest: Bytes)
    requires |p| >= 128
    ensures var r := GetValueAsWritten(TypeLengthDelim, Varint(|p|) + p + rest);
      r.Ok? && r.value.offset + |r.value.value| < |Varint(|p|)| + |p|
    ensures GetValueAsWritten(TypeLengthDelim, Varint(|p|) + p + rest) != GetValue(TypeLengthDelim, Varint(|p|) + p + rest)
  {
    var buffer := Varint(|p|) + p + rest;
    var head := (|p| % 128 + HasMoreBytes) as byte;
    assert Varint(|p|) == [head] + Varint(|p| / 128);
    assert |Varint(|p|)| >= 2;
    assert buffer[0] == head;
    var v := GetValueAsWritten(TypeLengthDelim, buffer).value;
    assert |v.value| <= head as nat;
    GetValueDelimited(p, rest);
  }

  // ---------------------------------------------------------------------
  // The decode loop.

  /**
   * What every class's `decode` computes from a buffer: read the field flag,
   * take the value after it (failing on an unknown wire type), skip the value
   * and its prefix, and apply the class's `decodeValue` (which fails when a
   * nested `decode` does).
   */
  function DecodeFields<T>(acc: T, buffer: Bytes, decodeValue: (T, int, Bytes) -> Result<T, DecodeError>): Result<T, DecodeError>
    decreases |buffer|
  {
    if buffer == [] then Ok(acc)
    else
      var flag := DecodeFieldFlag(buffer[0]);
      match GetValue(flag.mode, buffer[1..])
      case Err(e) => Err(e)
      case Ok(v) =>
        match decodeValue(acc, flag.field, v.value)
        case Err(e) => Err(e)
        case Ok(next) => DecodeFields(next, buffer[1 + |v.value| + v.offset..], decodeValue)
  }

  /**
   * The same loop over `getValue` as written: after a length-delimited value
   * it skips exactly one byte of prefix (`mode === kTypeLengthDelim ? 1 : 0`),
   * and an index that runs past the end stops the loop.
   */
  function DecodeFieldsAsWritten<T>(acc: T, buffer: Bytes, decodeValue: (T, int, Bytes) -> Result<T, DecodeError>)
    : Result<T, DecodeError>
    decreases |buffer|
  {
    if buffer == [] then Ok(acc)
    else
      var flag := DecodeFieldFlag(buffer[0]);
      match GetValueAsWritten(flag.mode, buffer[1..])
      case Err(e) => Err(e)
      case Ok(v) =>
        match decodeValue(acc, flag.field, v.value)
        case Err(e) => Err(e)
        case Ok(next) =>
          var skip := 1 + |v.value| + v.offset;
          DecodeFieldsAsWritten(next, if skip <= |buffer| then buffer[skip..] else [], decodeValue)
  }

  /** The `while (index < buffer.length)` loop shared by every class's `decode`. */
  method Decode<T>(init: T, buffer: Bytes, decodeValue: (T, int, Bytes) -> Result<T, DecodeError>)
    returns (r: Result<T, DecodeError>)
    ensures r == DecodeFields(init, buffer, decodeValue)
  {
    var data := init;
    var index := 0;
    while index < |buffer|
      invariant 0 <= index <= |buffer|
      invariant DecodeFields(data, buffer[index..], decodeValue) == DecodeFields(init, buffer, decodeValue)
      decreases |buffer| - index
    {
      var rest := buffer[index..];
      var flag := DecodeFieldFlag(buffer[index]);
      index := index + 1;
      assert buffer[index..] == rest[1..];
      var value := GetValue(flag.mode, buffer[index..]);
      if value.Err? {
        return Err(value.error);
      }
      index := index + |value.value.value| + value.value.offset;
      assert buffer[index..] == rest[1 + |value.value.value| + value.value.offset..];
      var next := decodeValue(data, flag.field, value.value.value);
      if next.Err? {
        return Err(next.error);
      }
      data := next.value;
    }
    assert buffer[index..] == [];
    return Ok(data);
  }

  /** `push`: append to the list, or start one if the field was still undefined. */
  function Push<T>(value: T, list: Option<seq<T>>): (r: seq<T>)
    ensures |r| >= 1 && r[|r| - 1] == value
    ensures list.Some? ==> r[..|r| - 1] == list.value
    ensures list.None? ==> |r| == 1
  {
    if list.Some? then list.value + [value] else [value]
  }

  // ---------------------------------------------------------------------
  // The decoded classes and their `decodeValue`.

  datatype ValueType = ValueType(typ: nat := 0, unit: nat := 0)

  datatype Label = Label(key: nat := 0, str: nat := 0, num: nat := 0, numUnit: nat := 0)

  datatype Sample = Sample(
    locationId: Option<seq<nat>> := None,
    value: Option<seq<nat>> := None,
    labels: Option<seq<Label>> := None)

  datatype Mapping = Mapping(
    id: nat := 0,
    memoryStart: nat := 0,
    memoryLimit: nat := 0,
    fileOffset: nat := 0,
    filename: nat := 0,
    buildId: nat := 0,
    hasFunctions: bool := false,
    hasFilenames: bool := false,
    hasLineNumbers: bool := false,
    hasInlineFrames: bool := false)

  datatype Line = Line(functionId: nat := 0, line: nat := 0)

  datatype Location = Location(
    id: nat := 0,
    mappingId: nat := 0,
    address: nat := 0,
    line: Option<seq<Line>> := None,
    isFolded: bool := false)

  datatype Function = Function(id: nat := 0, name: nat := 0, systemName: nat := 0, filename: nat := 0, startLine: nat := 0)

  /** The string table holds the raw bytes of each entry; `label` and `function` are keywords here, hence `labels` and `functions`. */
  datatype Profile = Profile(
    sampleType: Option<seq<ValueType>> := None,
    sample: Option<seq<Sample>> := None,
    mapping: Option<seq<Mapping>> := None,
    location: Option<seq<Location>> := None,
    functions: Option<seq<Function>> := None,
    stringTable: Option<seq<Bytes>> := None,
    dropFrames: nat := 0,
    keepFrames: nat := 0,
    timeNanos: nat := 0,
    durationNanos: nat := 0,
    periodType: Option<ValueType> := None,
    period: nat := 0,
    comment: Option<seq<nat>> := None,
    defaultSampleType: nat := 0)

  function ValueTypeField(data: ValueType, field: int, buffer: Bytes): Result<ValueType, DecodeError>
  {
    match field
    case 1 => Ok(data.(typ := DecodeNumber(buffer)))
    case 2 => Ok(data.(unit := DecodeNumber(buffer)))
    case _ => Ok(data)
  }

  function LabelField(data: Label, field: int, buffer: Bytes): Result<Label, DecodeError>
  {
    match field
    case 1 => Ok(data.(key := DecodeNumber(buffer)))
    case 2 => Ok(data.(str := DecodeNumber(buffer)))
    case 3 => Ok(data.(num := DecodeNumber(buffer)))
    case 4 => Ok(data.(numUnit := DecodeNumber(buffer)))
    case _ => Ok(data)
  }

  /** Location ids and values are replaced by the numbers of the packed field; labels are pushed. */
  function SampleField(data: Sample, field: int, buffer: Bytes): Result<Sample, DecodeError>
  {
    match field
    case 1 => Ok(data.(locationId := Some(C.Numbers(buffer))))
    case 2 => Ok(data.(value := Some(C.Numbers(buffer))))
    case 3 =>
      (match DecodeFields(Label(), buffer, LabelField)
       case Err(e) => Err(e)
       case Ok(l) => Ok(data.(labels := Some(Push(l, data.labels)))))
    case _ => Ok(data)
  }

  function MappingField(data: Mapping, field: int, buffer: Bytes): Result<Mapping, DecodeError>
  {
    match field
    case 1 => Ok(data.(id := DecodeNumber(buffer)))
    case 2 => Ok(data.(memoryStart := DecodeNumber(buffer)))
    case 3 => Ok(data.(memoryLimit := DecodeNumber(buffer)))
    case 4 => Ok(data.(fileOffset := DecodeNumber(buffer)))
    case 5 => Ok(data.(filename := DecodeNumber(buffer)))
    case 6 => Ok(data.(buildId := DecodeNumber(buffer)))
    case 7 => Ok(data.(hasFunctions := DecodeFlag(buffer)))
    case 8 => Ok(data.(hasFilenames := DecodeFlag(buffer)))
    case 9 => Ok(data.(hasLineNumbers := DecodeFlag(buffer)))
    case 10 => Ok(data.(hasInlineFrames := DecodeFlag(buffer)))
    case _ => Ok(data)
  }

  function LineField(data: Line, field: int, buffer: Bytes): Result<Line, DecodeError>
  {
    match field
    case 1 => Ok(data.(functionId := DecodeNumber(buffer)))
    case 2 => Ok(data.(line := DecodeNumber(buffer)))
    case _ => Ok(data)
  }

  function LocationField(data: Location, field: int, buffer: Bytes): Result<Location, DecodeError>
  {
    match field
    case 1 => Ok(data.(id := DecodeNumber(buffer)))
    case 2 => Ok(data.(mappingId := DecodeNumber(buffer)))
    case 3 => Ok(data.(address := DecodeNumber(buffer)))
    case 4 =>
      (match DecodeFields(Line(), buffer, LineField)
       case Err(e) => Err(e)
       case Ok(l) => Ok(data.(line := Some(Push(l, data.line)))))
    case 5 => Ok(data.(isFolded := DecodeFlag(buffer)))
    case _ => Ok(data)
  }

  function FunctionField(data: Function, field: int, buffer: Bytes): Result<Function, DecodeError>
  {
    match field
    case 1 => Ok(data.(id := DecodeNumber(buffer)))
    case 2 => Ok(data.(name := DecodeNumber(buffer)))
    case 3 => Ok(data.(systemName := DecodeNumber(buffer)))
    case 4 => Ok(data.(filename := DecodeNumber(buffer)))
    case 5 => Ok(data.(startLine := DecodeNumber(buffer)))
    case _ => Ok(data)
  }

  /** Repeated fields are pushed in wire order; the period type is replaced by the last one read. */
  function ProfileField(data: Profile, field: int, buffer: Bytes): Result<Profile, DecodeError>
  {
    match field
    case 1 =>
      (match DecodeFields(ValueType(), buffer, ValueTypeField)
       case Err(e) => Err(e)
       case Ok(v) => Ok(data.(sampleType := Some(Push(v, data.sampleType)))))
    case 2 =>
      (match DecodeFields(Sample(), buffer, SampleField)
       case Err(e) => Err(e)
       case Ok(s) => Ok(data.(sample := Some(Push(s, data.sample)))))
    case 3 =>
      (match DecodeFields(Mapping(), buffer, MappingField)
       case Err(e) => Err(e)
       case Ok(m) => Ok(data.(mapping := Some(Push(m, data.mapping)))))
    case 4 =>
      (match DecodeFields(Location(), buffer, LocationField)
       case Err(e) => Err(e)
       case Ok(l) => Ok(data.(location := Some(Push(l, data.location)))))
    case 5 =>
      (match DecodeFields(Function(), buffer, FunctionField)
       case Err(e) => Err(e)
       case Ok(f) => Ok(data.(functions := Some(Push(f, data.functions)))))
    case 6 => Ok(data.(stringTable := Some(Push(buffer, data.stringTable))))
    case 7 => Ok(data.(dropFrames := DecodeNumber(buffer)))
    case 8 => Ok(data.(keepFrames := DecodeNumber(buffer)))
    case 9 => Ok(data.(timeNanos := DecodeNumber(buffer)))
    case 10 => Ok(data.(durationNanos := DecodeNumber(buffer)))
    case 11 =>
      (match DecodeFields(ValueType(), buffer, ValueTypeField)
       case Err(e) => Err(e)
       case Ok(v) => Ok(data.(periodType := Some(v))))
    case 12 => Ok(data.(period := DecodeNumber(buffer)))
    case 13 => Ok(data.(comment := Some(Push(DecodeNumber(buffer), data.comment))))
    case 14 => Ok(data.(defaultSampleType := DecodeNumber(buffer)))
    case _ => Ok(data)
  }

  /** `Profile.decode`. */
  method DecodeProfile(buffer: Bytes) returns (r: Result<Profile, DecodeError>)
    ensures r == DecodeFields(Profile(), buffer, ProfileField)
  {
    r := Decode(Profile(), buffer, ProfileField);
  }
}
