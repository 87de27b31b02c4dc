/**
 * The Encoder of bindings/pprof.cc: four interning tables grown in place by
 * the dedup overloads, and the encode overloads that append each field's
 * bytes to an output buffer.  Every method is proved against the function of
 * EncodingSpec that says which tables it leaves behind and which fields it
 * writes.
 */
module Encoding {
  import opened Bytes
  import opened Wire
  import opened Pprof
  import opened Interning
  import opened EncodingSpec

  /** `std::find`: the first position holding x, or |xs| when there is none. */
  method Find<T(==)>(xs: seq<T>, x: T) returns (i: nat)
    ensures i == (if x in xs then IndexOf(xs, x) else |xs|)
  {
    i := 0;
    while i < |xs| && xs[i] != x
      invariant i <= |xs|
      invariant forall j :: 0 <= j < i ==> xs[j] != x
    {
      i := i + 1;
    }
    if i < |xs| {
      IndexOfIsFirst(xs, x, i);
    }
  }

  class Encoder {
    var stringTable: seq<Str>
    var mappings: seq<Mapping>
    var locations: seq<Location>
    var functions: seq<Function>

    function State(): Tables
      reads this
    {
      Tables(stringTable, mappings, locations, functions)
    }

    /** The string table is seeded with "", so "" is always id 0. */
    constructor ()
      ensures State() == InitialTables
    {
      stringTable := [[]];
      mappings := [];
      locations := [];
      functions := [];
    }

    method DedupString(str: Str) returns (id: nat)
      modifies this
      ensures Interned(State(), id) == InternString(old(State()), str)
    {
      var found := Find(stringTable, str);
      if found < |stringTable| {
        return found;
      }
      stringTable := stringTable + [str];
      id := |stringTable| - 1;
    }

    method DedupMapping(mapping: Mapping) returns (id: nat)
      modifies this
      ensures Interned(State(), id) == InternMapping(old(State()), mapping)
    {
      if mapping == DefaultMapping {
        return 0;
      }
      var found := Find(mappings, mapping);
      if found < |mappings| {
        return found + 1;
      }
      mappings := mappings + [mapping];
      id := |mappings|;
    }

    method DedupLocation(location: Location) returns (id: nat)
      modifies this
      ensures Interned(State(), id) == InternLocation(old(State()), location)
    {
      if location == DefaultLocation {
        return 0;
      }
      var found := Find(locations, location);
      if found < |locations| {
        return found + 1;
      }
      locations := locations + [location];
      id := |locations|;
    }

    method DedupFunction(func: Function) returns (id: nat)
      modifies this
      ensures Interned(State(), id) == InternFunction(old(State()), func)
    {
      if func == DefaultFunction {
        return 0;
      }
      var found := Find(functions, func);
      if found < |functions| {
        return found + 1;
      }
      functions := functions + [func];
      id := |functions|;
    }

    /** The varint loop: seven low bits with the continuation bit, then shift. */
    static method EncodeNumber(number: nat) returns (out: Bytes)
      ensures out == Varint(number)
    {
      out := [];
      var n: nat := number;
      while n >= HasMoreBytes
        invariant out + Varint(n) == Varint(number)
        decreases n
      {
        out := out + [(n % 128 + HasMoreBytes) as byte];
        n := n / 128;
      }
      out := out + [n as byte];
    }

    static method EncodeBool(v: bool) returns (out: Bytes)
      ensures out == Varint(if v then 1 else 0)
    {
      out := [if v then 1 else 0];
    }

    static method EncodeVarint(index: nat, number: nat) returns (out: Bytes)
      ensures out == Serialize(VarintFields(index, number))
    {
      out := [];
      if number != 0 {
        var encoded := EncodeNumber(number);
        out := [Tag(index, WireTypeVarInt)] + encoded;
      }
    }

    static method EncodeVarintBool(index: nat, v: bool) returns (out: Bytes)
      ensures out == Serialize(BoolFields(index, v))
    {
      out := [];
      if v {
        var encoded := EncodeBool(v);
        out := [Tag(index, WireTypeVarInt)] + encoded;
      }
    }

    /**
     * The body shared by encode_length_delimited and
     * encode_length_delimited_with_id, given the value's own encoding.
     */
    static method EncodeLengthDelimited(index: nat, encoded: Bytes) returns (out: Bytes)
      ensures out == Serialize(DelimitedFields(index, encoded))
    {
      out := [];
      if |encoded| > 0 {
        var size := EncodeNumber(|encoded|);
        out := [Tag(index, WireTypeLengthDelimited)] + size + encoded;
      }
    }

    static method EncodeString(index: nat, str: Str) returns (out: Bytes)
      ensures out == Serialize([BytesField(index, str)])
    {
      var size := EncodeNumber(|str|);
      out := [Tag(index, WireTypeLengthDelimited)] + size + str;
    }

    method EncodeValueType(valueType: ValueType) returns (out: Bytes)
      modifies this
      ensures var r := EncValueType(old(State()), valueType);
        State() == r.tables && out == Serialize(r.fields)
    {
      var typeId := DedupString(valueType.typeName);
      var typeBytes := EncodeVarint(1, typeId);
      var unitId := DedupString(valueType.unit);
      var unitBytes := EncodeVarint(2, unitId);
      out := typeBytes + unitBytes;
      SerializeAppend(VarintFields(1, typeId), VarintFields(2, unitId));
    }

    method EncodeLabel(l: Label) returns (out: Bytes)
      modifies this
      ensures var r := EncLabel(old(State()), l);
        State() == r.tables && out == Serialize(r.fields)
    {
      var keyId := DedupString(l.key);
      var keyBytes := EncodeVarint(1, keyId);
      var strId := DedupString(l.str);
      var strBytes := EncodeVarint(2, strId);
      var numBytes := EncodeVarint(3, l.num);
      var unitId := DedupString(l.numUnit);
      var unitBytes := EncodeVarint(4, unitId);
      out := keyBytes + strBytes + numBytes + unitBytes;
      SerializeAppend(VarintFields(1, keyId), VarintFields(2, strId));
      SerializeAppend(VarintFields(1, keyId) + VarintFields(2, strId), VarintFields(3, l.num));
      SerializeAppend(VarintFields(1, keyId) + VarintFields(2, strId) + VarintFields(3, l.num),
                      VarintFields(4, unitId));
    }

    method EncodeSample(sample: Sample) returns (out: Bytes)
      modifies this
      ensures var r := EncSample(old(State()), sample);
        State() == r.tables && out == Serialize(r.fields)
    {
      ghost var t0 := State();
      out := [];
      var ids: seq<nat> := [];
      if |sample.locations| > 0 {
        ids := DedupLocations(sample.locations);
        var locationBytes := EncodePacked(ids);
        out := EncodeLengthDelimited(1, locationBytes);
      }
      ghost var afterIds := State();
      assert InternLocations(t0, sample.locations) == InternedIds(afterIds, ids);
      if |sample.values| > 0 {
        var valuesBytes := EncodePacked(sample.values);
        var valuesField := EncodeLengthDelimited(2, valuesBytes);
        out := out + valuesField;
      }
      var labelsBytes := EncodeLabels(sample.labels);
      out := out + labelsBytes;
      SerializeAppend(DelimitedFields(1, Packed(ids)), DelimitedFields(2, Packed(sample.values)));
      SerializeAppend(DelimitedFields(1, Packed(ids)) + DelimitedFields(2, Packed(sample.values)),
                      EncLabels(afterIds, sample.labels).fields);
    }

    /** The `std::transform` of a sample's locations through dedup. */
    method DedupLocations(locs: seq<Location>) returns (ids: seq<nat>)
      modifies this
      ensures InternLocations(old(State()), locs) == InternedIds(State(), ids)
    {
      ghost var t0 := State();
      ids := [];
      var i := 0;
      while i < |locs|
        invariant 0 <= i <= |locs|
        invariant InternLocations(t0, locs[..i]) == InternedIds(State(), ids)
      {
        assert locs[..i + 1][..i] == locs[..i];
        var id := DedupLocation(locs[i]);
        ids := ids + [id];
        i := i + 1;
      }
      assert locs[..i] == locs;
    }

    /** The loops of encode(Sample) that write each number's varint back to back. */
    static method EncodePacked(numbers: seq<nat>) returns (out: Bytes)
      ensures out == Packed(numbers)
    {
      out := [];
      var j := 0;
      while j < |numbers|
        invariant 0 <= j <= |numbers|
        invariant out == Packed(numbers[..j])
      {
        var encoded := EncodeNumber(numbers[j]);
        PackedAppend(numbers[..j], [numbers[j]]);
        assert numbers[..j + 1] == numbers[..j] + [numbers[j]];
        out := out + encoded;
        j := j + 1;
      }
      assert numbers[..j] == numbers;
    }

    /** The `for (auto label : sample.labels)` loop of encode(Sample). */
    method EncodeLabels(labels: seq<Label>) returns (out: Bytes)
      modifies this
      ensures var r := EncLabels(old(State()), labels);
        State() == r.tables && out == Serialize(r.fields)
    {
      ghost var t0 := State();
      out := [];
      var n := 0;
      while n < |labels|
        invariant 0 <= n <= |labels|
        invariant var r := EncLabels(t0, labels[..n]);
          State() == r.tables && out == Serialize(r.fields)
      {
        ghost var before := EncLabels(t0, labels[..n]);
        var encoded := EncodeLabel(labels[n]);
        var field := EncodeLengthDelimited(3, encoded);
        LabelsStep(t0, labels, n, before, State(), encoded);
        SerializeAppend(before.fields, DelimitedFields(3, encoded));
        out := out + field;
        n := n + 1;
      }
      assert labels[..n] == labels;
    }

    static method EncodeMapping(id: nat, mapping: Mapping) returns (out: Bytes)
      ensures out == Serialize(EncMapping(id, mapping))
    {
      var b1 := EncodeVarint(1, id);
      var b2 := EncodeVarint(2, mapping.memoryStart);
      var b3 := EncodeVarint(3, mapping.memoryLimit);
      var b4 := EncodeVarint(4, mapping.fileOffset);
      var b5 := EncodeVarint(5, mapping.filename);
      var b6 := EncodeVarint(6, mapping.buildId);
      var b7 := EncodeVarintBool(7, mapping.hasFunctions);
      var b8 := EncodeVarintBool(8, mapping.hasFilenames);
      var b9 := EncodeVarintBool(9, mapping.hasLineNumbers);
      var b10 := EncodeVarintBool(10, mapping.hasInlineFrames);
      out := b1 + b2 + b3 + b4 + b5 + b6 + b7 + b8 + b9 + b10;
      SerializeConcat10(
        VarintFields(1, id), VarintFields(2, mapping.memoryStart), VarintFields(3, mapping.memoryLimit),
        VarintFields(4, mapping.fileOffset), VarintFields(5, mapping.filename), VarintFields(6, mapping.buildId),
        BoolFields(7, mapping.hasFunctions), BoolFields(8, mapping.hasFilenames),
        BoolFields(9, mapping.hasLineNumbers), BoolFields(10, mapping.hasInlineFrames));
    }

    method EncodeLine(line: Line) returns (out: Bytes)
      modifies this
      ensures var r := EncLine(old(State()), line);
        State() == r.tables && out == Serialize(r.fields)
    {
      var functionId := DedupFunction(line.func);
      var functionBytes := EncodeVarint(1, functionId);
      var lineBytes := EncodeVarint(2, line.line);
      out := functionBytes + lineBytes;
      SerializeAppend(VarintFields(1, functionId), VarintFields(2, line.line));
    }

    method EncodeLocation(id: nat, location: Location) returns (out: Bytes)
      modifies this
      ensures var r := EncLocation(old(State()), id, location);
        State() == r.tables && out == Serialize(r.fields)
    {
      var idBytes := EncodeVarint(1, id);
      var mappingId := DedupMapping(location.mapping);
      var mappingBytes := EncodeVarint(2, mappingId);
      var addressBytes := EncodeVarint(3, location.address);
      out := idBytes + mappingBytes + addressBytes;
      ghost var afterMapping := State();
      var linesBytes := EncodeLines(location.lines);
      var foldedBytes := EncodeVarintBool(5, location.isFolded);
      out := out + linesBytes + foldedBytes;
      ghost var lines := EncLines(afterMapping, location.lines).fields;
      SerializeAppend(VarintFields(1, id), VarintFields(2, mappingId));
      SerializeAppend(VarintFields(1, id) + VarintFields(2, mappingId), VarintFields(3, location.address));
      SerializeAppend(VarintFields(1, id) + VarintFields(2, mappingId) + VarintFields(3, location.address), lines);
      SerializeAppend(VarintFields(1, id) + VarintFields(2, mappingId) + VarintFields(3, location.address) + lines,
                      BoolFields(5, location.isFolded));
    }

    /** The `for (auto line : location.lines)` loop of encode(id, Location). */
    method EncodeLines(lines: seq<Line>) returns (out: Bytes)
      modifies this
      ensures var r := EncLines(old(State()), lines);
        State() == r.tables && out == Serialize(r.fields)
    {
      ghost var t0 := State();
      out := [];
      var n := 0;
      while n < |lines|
        invariant 0 <= n <= |lines|
        invariant var r := EncLines(t0, lines[..n]);
          State() == r.tables && out == Serialize(r.fields)
      {
        ghost var before := EncLines(t0, lines[..n]);
        var encoded := EncodeLine(lines[n]);
        var field := EncodeLengthDelimited(4, encoded);
        LinesStep(t0, lines, n, before, State(), encoded);
        SerializeAppend(before.fields, DelimitedFields(4, encoded));
        out := out + field;
        n := n + 1;
      }
      assert lines[..n] == lines;
    }

    method EncodeFunction(id: nat, func: Function) returns (out: Bytes)
      modifies this
      ensures var r := EncFunction(old(State()), id, func);
        State() == r.tables && out == Serialize(r.fields)
    {
      var idBytes := EncodeVarint(1, id);
      var nameId := DedupString(func.name);
      var nameBytes := EncodeVarint(2, nameId);
      var systemNameId := DedupString(func.systemName);
      var systemNameBytes := EncodeVarint(3, systemNameId);
      var filenameId := DedupString(func.filename);
      var filenameBytes := EncodeVarint(4, filenameId);
      var startLineBytes := EncodeVarint(5, func.startLine);
      out := idBytes + nameBytes + systemNameBytes + filenameBytes + startLineBytes;
      SerializeAppend(VarintFields(1, id), VarintFields(2, nameId));
      SerializeAppend(VarintFields(1, id) + VarintFields(2, nameId), VarintFields(3, systemNameId));
      SerializeAppend(VarintFields(1, id) + VarintFields(2, nameId) + VarintFields(3, systemNameId),
                      VarintFields(4, filenameId));
      SerializeAppend(VarintFields(1, id) + VarintFields(2, nameId) + VarintFields(3, systemNameId)
                      + VarintFields(4, filenameId), VarintFields(5, func.startLine));
    }

    /** The `for (auto sample_type : profile.sample_type)` loop of encode(Profile). */
    method EncodeSampleTypes(types: seq<ValueType>) returns (out: Bytes)
      modifies this
      ensures var r := EncSampleTypes(old(State()), types);
        State() == r.tables && out == Serialize(r.fields)
    {
      ghost var t0 := State();
      out := [];
      var n := 0;
      while n < |types|
        invariant 0 <= n <= |types|
        invariant var r := EncSampleTypes(t0, types[..n]);
          State() == r.tables && out == Serialize(r.fields)
      {
        ghost var before := EncSampleTypes(t0, types[..n]);
        var encoded := EncodeValueType(types[n]);
        var field := EncodeLengthDelimited(1, encoded);
        SampleTypesStep(t0, types, n, before, State(), encoded);
        SerializeAppend(before.fields, DelimitedFields(1, encoded));
        out := out + field;
        n := n + 1;
      }
      assert types[..n] == types;
    }

    /** The `for (auto sample : profile.sample)` loop of encode(Profile). */
    method EncodeSamples(samples: seq<Sample>) returns (out: Bytes)
      modifies this
      ensures var r := EncSamples(old(State()), samples);
        State() == r.tables && out == Serialize(r.fields)
    {
      ghost var t0 := State();
      out := [];
      var n := 0;
      while n < |samples|
        invariant 0 <= n <= |samples|
        invariant var r := EncSamples(t0, samples[..n]);
          State() == r.tables && out == Serialize(r.fields)
      {
        ghost var before := EncSamples(t0, samples[..n]);
        var encoded := EncodeSample(samples[n]);
        var field := EncodeLengthDelimited(2, encoded);
        SamplesStep(t0, samples, n, before, State(), encoded);
        SerializeAppend(before.fields, DelimitedFields(2, encoded));
        out := out + field;
        n := n + 1;
      }
      assert samples[..n] == samples;
    }

    /**
     * The location loop of encode(Profile): it runs over the live table, which
     * encoding a location never grows, giving entry i the id i + 1.
     */
    method EncodeLocationTable() returns (out: Bytes)
      modifies this
      ensures var r := EncLocationTable(old(State()), old(locations));
        State() == r.tables && out == Serialize(r.fields)
    {
      ghost var t0 := State();
      out := [];
      var i := 0;
      while i < |locations|
        invariant locations == t0.locations && 0 <= i <= |locations|
        invariant var r := EncLocationTable(t0, t0.locations[..i]);
          State() == r.tables && out == Serialize(r.fields)
      {
        ghost var before := EncLocationTable(t0, t0.locations[..i]);
        var encoded := EncodeLocation(i + 1, locations[i]);
        var field := EncodeLengthDelimited(4, encoded);
        LocationTableStep(t0, i, before, State(), encoded);
        SerializeAppend(before.fields, DelimitedFields(4, encoded));
        out := out + field;
        i := i + 1;
      }
      assert t0.locations[..i] == t0.locations;
    }

    /** The mapping loop of encode(Profile): entry i with the id i + 1. */
    method EncodeMappingTable() returns (out: Bytes)
      ensures out == Serialize(EncMappingTable(mappings))
    {
      out := [];
      var i := 0;
      while i < |mappings|
        invariant 0 <= i <= |mappings|
        invariant out == Serialize(EncMappingTable(mappings[..i]))
      {
        var encoded := EncodeMapping(i + 1, mappings[i]);
        var field := EncodeLengthDelimited(3, encoded);
        MappingTableStep(mappings, i, encoded);
        SerializeAppend(EncMappingTable(mappings[..i]), DelimitedFields(3, encoded));
        out := out + field;
        i := i + 1;
      }
      assert mappings[..i] == mappings;
    }

    /** The function loop of encode(Profile): entry i with the id i + 1. */
    method EncodeFunctionTable() returns (out: Bytes)
      modifies this
      ensures var r := EncFunctionTable(old(State()), old(functions));
        State() == r.tables && out == Serialize(r.fields)
    {
      ghost var t0 := State();
      out := [];
      var i := 0;
      while i < |functions|
        invariant functions == t0.functions && 0 <= i <= |functions|
        invariant var r := EncFunctionTable(t0, t0.functions[..i]);
          State() == r.tables && out == Serialize(r.fields)
      {
        ghost var before := EncFunctionTable(t0, t0.functions[..i]);
        var encoded := EncodeFunction(i + 1, functions[i]);
        var field := EncodeLengthDelimited(5, encoded);
        FunctionTableStep(t0, i, before, State(), encoded);
        SerializeAppend(before.fields, DelimitedFields(5, encoded));
        out := out + field;
        i := i + 1;
      }
      assert t0.functions[..i] == t0.functions;
    }

    /** The `for (auto comment : profile.comment)` loop of encode(Profile). */
    method EncodeComments(comments: seq<Str>) returns (out: Bytes)
      modifies this
      ensures var r := EncComments(old(State()), comments);
        State() == r.tables && out == Serialize(r.fields)
    {
      ghost var t0 := State();
      out := [];
      var n := 0;
      while n < |comments|
        invariant 0 <= n <= |comments|
        invariant var r := EncComments(t0, comments[..n]);
          State() == r.tables && out == Serialize(r.fields)
      {
        ghost var before := EncComments(t0, comments[..n]);
        var id := DedupString(comments[n]);
        var field := EncodeVarint(13, id);
        CommentsStep(t0, comments, n, before, State(), id);
        SerializeAppend(before.fields, VarintFields(13, id));
        out := out + field;
        n := n + 1;
      }
      assert comments[..n] == comments;
    }

    /** The string-table loop of encode(Profile): every entry, in index order. */
    method EncodeStringTable() returns (out: Bytes)
      ensures out == Serialize(StringTable(stringTable))
    {
      out := [];
      var i := 0;
      while i < |stringTable|
        invariant 0 <= i <= |stringTable|
        invariant out == Serialize(StringTable(stringTable[..i]))
      {
        var field := EncodeString(6, stringTable[i]);
        StringTableStep(stringTable, i);
        SerializeAppend(StringTable(stringTable[..i]), [BytesField(6, stringTable[i])]);
        out := out + field;
        i := i + 1;
      }
      assert stringTable[..i] == stringTable;
    }

    /**
     * encode(Profile), statement by statement: the location bytes are
     * produced before the mapping table is written, and the period type and
     * comments before the string table.
     */
    method EncodeProfile(profile: Profile) returns (out: Bytes)
      modifies this
      ensures var r := EncProfile(old(State()), profile.Data());
        State() == r.tables && out == Serialize(r.fields)
    {
      ghost var p := profile.Data();
      ghost var t0 := State();
      var typesBytes := EncodeSampleTypes(profile.sampleType);
      ghost var types := EncSampleTypes(t0, p.sampleType);
      var samplesBytes := EncodeSamples(profile.sample);
      ghost var samples := EncSamples(types.tables, p.sample);
      assert State() == samples.tables;
      var locationBytes := EncodeLocationTable();
      ghost var locations := EncLocationTable(samples.tables, samples.tables.locations);
      assert State() == locations.tables;
      var mappingBytes := EncodeMappingTable();
      var functionBytes := EncodeFunctionTable();
      ghost var functions := EncFunctionTable(locations.tables, locations.tables.functions);
      assert State() == functions.tables;
      var periodTypeEncoded := EncodeValueType(profile.periodType);
      var periodTypeBytes := EncodeLengthDelimited(11, periodTypeEncoded);
      ghost var periodType := EncValueType(functions.tables, p.periodType);
      assert State() == periodType.tables;
      var commentBytes := EncodeComments(profile.comment);
      var stringBytes := EncodeStringTable();
      var dropBytes := EncodeVarint(7, profile.dropFrames);
      var keepBytes := EncodeVarint(8, profile.keepFrames);
      var timeBytes := EncodeVarint(9, profile.timeNanos);
      var durationBytes := EncodeVarint(10, profile.durationNanos);
      var periodBytes := EncodeVarint(12, profile.period);
      var defaultBytes := EncodeVarint(14, profile.defaultSampleType);
      out := typesBytes + samplesBytes + mappingBytes + locationBytes + functionBytes + stringBytes
        + dropBytes + keepBytes + timeBytes + durationBytes + periodTypeBytes + periodBytes
        + commentBytes + defaultBytes;
      ProfileBytes(t0, p);
    }
  }

  /** One turn of the line loop of encode(Location): line n is interned and appended as field 4. */
  lemma {:induction false} LinesStep(t0: Tables, ls: seq<Line>, n: nat, before: Encoded, after: Tables, encoded: Bytes)
    requires n < |ls| && before == EncLines(t0, ls[..n])
    requires var last := EncLine(before.tables, ls[n]);
      after == last.tables && encoded == Serialize(last.fields)
    ensures EncLines(t0, ls[..n + 1]) == Encoded(after, before.fields + DelimitedFields(4, encoded))
  {
    PrefixStep(ls, n);
  }

  /** One turn of the mapping loop: entry i, with id i + 1, appended as field 3. */
  lemma {:induction false} MappingTableStep(ms: seq<Mapping>, i: nat, encoded: Bytes)
    requires i < |ms| && encoded == Serialize(EncMapping(i + 1, ms[i]))
    ensures EncMappingTable(ms[..i + 1]) == EncMappingTable(ms[..i]) + DelimitedFields(3, encoded)
  {
    PrefixStep(ms, i);
  }

  /** One turn of the string-table loop: entry i appended as field 6. */
  lemma {:induction false} StringTableStep(ss: seq<Str>, i: nat)
    requires i < |ss|
    ensures StringTable(ss[..i + 1]) == StringTable(ss[..i]) + [BytesField(6, ss[i])]
  {
    PrefixStep(ss, i);
  }

  /** One turn of the sample-type loop: type n is interned and appended as field 1. */
  lemma {:induction false} SampleTypesStep(t0: Tables, vs: seq<ValueType>, n: nat, before: Encoded, after: Tables,
                                           encoded: Bytes)
    requires n < |vs| && before == EncSampleTypes(t0, vs[..n])
    requires var last := EncValueType(before.tables, vs[n]);
      after == last.tables && encoded == Serialize(last.fields)
    ensures EncSampleTypes(t0, vs[..n + 1]) == Encoded(after, before.fields + DelimitedFields(1, encoded))
  {
    PrefixStep(vs, n);
  }

  /** One turn of the label loop: label n is interned and appended as field 3. */
  lemma {:induction false} LabelsStep(t0: Tables, ls: seq<Label>, n: nat, before: Encoded, after: Tables, encoded: Bytes)
    requires n < |ls| && before == EncLabels(t0, ls[..n])
    requires var last := EncLabel(before.tables, ls[n]);
      after == last.tables && encoded == Serialize(last.fields)
    ensures EncLabels(t0, ls[..n + 1]) == Encoded(after, before.fields + DelimitedFields(3, encoded))
  {
    PrefixStep(ls, n);
  }

  /** One turn of the sample loop: sample n is interned and appended as field 2. */
  lemma {:induction false} SamplesStep(t0: Tables, ss: seq<Sample>, n: nat, before: Encoded, after: Tables,
                                       encoded: Bytes)
    requires n < |ss| && before == EncSamples(t0, ss[..n])
    requires var last := EncSample(before.tables, ss[n]);
      after == last.tables && encoded == Serialize(last.fields)
    ensures EncSamples(t0, ss[..n + 1]) == Encoded(after, before.fields + DelimitedFields(2, encoded))
  {
    PrefixStep(ss, n);
  }

  /** One turn of the location loop: entry i is interned and appended as field 4, and the table itself is unchanged. */
  lemma {:induction false} LocationTableStep(t0: Tables, i: nat, before: Encoded, after: Tables, encoded: Bytes)
    requires i < |t0.locations| && before == EncLocationTable(t0, t0.locations[..i])
    requires var last := EncLocation(before.tables, i + 1, t0.locations[i]);
      after == last.tables && encoded == Serialize(last.fields)
    ensures EncLocationTable(t0, t0.locations[..i + 1]) == Encoded(after, before.fields + DelimitedFields(4, encoded))
    ensures after.locations == t0.locations
  {
    PrefixStep(t0.locations, i);
  }

  /** One turn of the function loop: entry i is interned and appended as field 5, and the table itself is unchanged. */
  lemma {:induction false} FunctionTableStep(t0: Tables, i: nat, before: Encoded, after: Tables, encoded: Bytes)
    requires i < |t0.functions| && before == EncFunctionTable(t0, t0.functions[..i])
    requires var last := EncFunction(before.tables, i + 1, t0.functions[i]);
      after == last.tables && encoded == Serialize(last.fields)
    ensures EncFunctionTable(t0, t0.functions[..i + 1]) == Encoded(after, before.fields + DelimitedFields(5, encoded))
    ensures after.functions == t0.functions
  {
    PrefixStep(t0.functions, i);
  }

  /** One turn of the comment loop: comment n is interned and its id appended as field 13. */
  lemma {:induction false} CommentsStep(t0: Tables, cs: seq<Str>, n: nat, before: Encoded, after: Tables, id: nat)
    requires n < |cs| && before == EncComments(t0, cs[..n])
    requires Interned(after, id) == InternString(before.tables, cs[n])
    ensures EncComments(t0, cs[..n + 1]) == Encoded(after, before.fields + VarintFields(13, id))
  {
    PrefixStep(cs, n);
  }

  /** The prefix of length i of the prefix of length i + 1. */
  lemma {:induction false} PrefixStep<T>(s: seq<T>, i: nat)
    requires i < |s|
    ensures s[..i + 1][..i] == s[..i]
  {
  }

  /** The bytes of encode(Profile) are the concatenation of its sections' bytes. */
  lemma {:induction false} ProfileBytes(t: Tables, p: ProfileData)
    ensures
      var types := EncSampleTypes(t, p.sampleType);
      var samples := EncSamples(types.tables, p.sample);
      var locations := EncLocationTable(samples.tables, samples.tables.locations);
      var mappings := EncMappingTable(locations.tables.mappings);
      var functions := EncFunctionTable(locations.tables, locations.tables.functions);
      var periodType := EncValueType(functions.tables, p.periodType);
      var comments := EncComments(periodType.tables, p.comment);
      Serialize(EncProfile(t, p).fields)
      == Serialize(types.fields) + Serialize(samples.fields) + Serialize(mappings)
       + Serialize(locations.fields) + Serialize(functions.fields)
       + Serialize(StringTable(comments.tables.strings))
       + Serialize(VarintFields(7, p.dropFrames)) + Serialize(VarintFields(8, p.keepFrames))
       + Serialize(VarintFields(9, p.timeNanos)) + Serialize(VarintFields(10, p.durationNanos))
       + Serialize(DelimitedFields(11, Serialize(periodType.fields)))
       + Serialize(VarintFields(12, p.period)) + Serialize(comments.fields)
       + Serialize(VarintFields(14, p.defaultSampleType))
  {
    var types := EncSampleTypes(t, p.sampleType);
    var samples := EncSamples(types.tables, p.sample);
    var locations := EncLocationTable(samples.tables, samples.tables.locations);
    var mappings := EncMappingTable(locations.tables.mappings);
    var functions := EncFunctionTable(locations.tables, locations.tables.functions);
    var periodType := EncValueType(functions.tables, p.periodType);
    var comments := EncComments(periodType.tables, p.comment);
    var f1, f2, f3, f4, f5 := types.fields, samples.fields, mappings, locations.fields, functions.fields;
    var f6 := StringTable(comments.tables.strings);
    var f7, f8, f9, f10 := VarintFields(7, p.dropFrames), VarintFields(8, p.keepFrames),
      VarintFields(9, p.timeNanos), VarintFields(10, p.durationNanos);
    var f11, f12, f13, f14 := DelimitedFields(11, Serialize(periodType.fields)),
      VarintFields(12, p.period), comments.fields, VarintFields(14, p.defaultSampleType);
    SerializeConcat10(f1, f2, f3, f4, f5, f6, f7, f8, f9, f10);
    SerializeAppend(f1 + f2 + f3 + f4 + f5 + f6 + f7 + f8 + f9 + f10, f11);
    SerializeAppend(f1 + f2 + f3 + f4 + f5 + f6 + f7 + f8 + f9 + f10 + f11, f12);
    SerializeAppend(f1 + f2 + f3 + f4 + f5 + f6 + f7 + f8 + f9 + f10 + f11 + f12, f13);
    SerializeAppend(f1 + f2 + f3 + f4 + f5 + f6 + f7 + f8 + f9 + f10 + f11 + f12 + f13, f14);
  }

  lemma {:induction false} SerializeConcat10(f1: seq<Field>, f2: seq<Field>, f3: seq<Field>, f4: seq<Field>, f5: seq<Field>,
                          f6: seq<Field>, f7: seq<Field>, f8: seq<Field>, f9: seq<Field>, f10: seq<Field>)
    ensures Serialize(f1 + f2 + f3 + f4 + f5 + f6 + f7 + f8 + f9 + f10)
         == Serialize(f1) + Serialize(f2) + Serialize(f3) + Serialize(f4) + Serialize(f5)
          + Serialize(f6) + Serialize(f7) + Serialize(f8) + Serialize(f9) + Serialize(f10)
  {
    SerializeAppend(f1, f2);
    SerializeAppend(f1 + f2, f3);
    SerializeAppend(f1 + f2 + f3, f4);
    SerializeAppend(f1 + f2 + f3 + f4, f5);
    SerializeAppend(f1 + f2 + f3 + f4 + f5, f6);
    SerializeAppend(f1 + f2 + f3 + f4 + f5 + f6, f7);
    SerializeAppend(f1 + f2 + f3 + f4 + f5 + f6 + f7, f8);
    SerializeAppend(f1 + f2 + f3 + f4 + f5 + f6 + f7 + f8, f9);
    SerializeAppend(f1 + f2 + f3 + f4 + f5 + f6 + f7 + f8 + f9, f10);
  }
}
