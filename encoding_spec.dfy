/**
 * What each `Encoder::encode` overload of bindings/pprof.cc writes, as a
 * function of the interning tables before the call: the tables after it and
 * the list of fields it writes (its bytes are `Serialize` of that list).
 * Every dedup call is threaded through in the order the C++ statements make
 * it, so ids depend on encounter order exactly as in the encoder.
 */
module EncodingSpec {
  import opened Bytes
  import opened Wire
  import opened Pprof
  import opened Interning

  /** The tables after an encode call, and the fields it wrote. */
  datatype Encoded = Encoded(tables: Tables, fields: seq<Field>)

  /** The tables after interning a list of locations, and their ids in order. */
  datatype InternedIds = InternedIds(tables: Tables, ids: seq<nat>)

  /** Every field of fs has field number k. */
  predicate AllIndex(fs: seq<Field>, k: nat)
  {
    forall i :: 0 <= i < |fs| ==> fs[i].index == k
  }

  /** Two lists of fields with number k concatenate to one. */
  lemma {:induction false} AllIndexAppend(a: seq<Field>, b: seq<Field>, k: nat)
    requires AllIndex(a, k) && AllIndex(b, k)
    ensures AllIndex(a + b, k)
  {
  }

  /** A length-delimited field has the number it was written with. */
  lemma {:induction false} DelimitedFieldsIndex(index: nat, payload: Bytes)
    ensures AllIndex(DelimitedFields(index, payload), index)
  {
  }

  /** Field numbers never decrease along fs. */
  predicate IndicesSorted(fs: seq<Field>)
  {
    forall i, j :: 0 <= i < j < |fs| ==> fs[i].index <= fs[j].index
  }

  // encode_varint: a zero value writes nothing.
  function VarintFields(index: nat, n: nat): seq<Field>
  {
    if n == 0 then [] else [VarintField(index, n)]
  }

  // encode_varint on a bool goes through encode(bool): one byte 1, or nothing.
  function BoolFields(index: nat, v: bool): seq<Field>
  {
    VarintFields(index, if v then 1 else 0)
  }

  // encode_length_delimited[_with_id]: an empty inner encoding writes nothing.
  function DelimitedFields(index: nat, payload: Bytes): seq<Field>
  {
    if |payload| == 0 then [] else [BytesField(index, payload)]
  }

  /** encode(ValueType): interned type, then interned unit. */
  function EncValueType(t: Tables, v: ValueType): (r: Encoded)
    ensures GrowsStrings(t, r.tables) && (Valid(t) ==> Valid(r.tables))
  {
    var ty := InternString(t, v.typeName);
    var un := InternString(ty.tables, v.unit);
    Encoded(un.tables, VarintFields(1, ty.id) + VarintFields(2, un.id))
  }

  /** encode(Label): key, str, num, num_unit; the three strings interned in that order. */
  function EncLabel(t: Tables, l: Label): (r: Encoded)
    ensures GrowsStrings(t, r.tables) && (Valid(t) ==> Valid(r.tables))
  {
    var key := InternString(t, l.key);
    var str := InternString(key.tables, l.str);
    var unit := InternString(str.tables, l.numUnit);
    Encoded(unit.tables,
      VarintFields(1, key.id) + VarintFields(2, str.id) + VarintFields(3, l.num) + VarintFields(4, unit.id))
  }

  /** The labels of a sample, each as its own field 3. */
  function EncLabels(t: Tables, ls: seq<Label>): (r: Encoded)
    ensures GrowsStrings(t, r.tables) && (Valid(t) ==> Valid(r.tables))
    ensures AllIndex(r.fields, 3)
    decreases |ls|
  {
    if ls == [] then Encoded(t, [])
    else
      var init := EncLabels(t, ls[..|ls| - 1]);
      var last := EncLabel(init.tables, ls[|ls| - 1]);
      Encoded(last.tables, init.fields + DelimitedFields(3, Serialize(last.fields)))
  }

  /** The `std::transform` of a sample's locations through dedup, left to right. */
  function InternLocations(t: Tables, locs: seq<Location>): (r: InternedIds)
    ensures |r.ids| == |locs|
    ensures GrowsLocations(t, r.tables) && (Valid(t) ==> Valid(r.tables))
    ensures forall i :: 0 <= i < |locs| ==> LocationAt(r.tables, r.ids[i], locs[i])
    decreases |locs|
  {
    if locs == [] then InternedIds(t, [])
    else
      var init := InternLocations(t, locs[..|locs| - 1]);
      var last := InternLocation(init.tables, locs[|locs| - 1]);
      InternedIds(last.tables, init.ids + [last.id])
  }

  /** encode(Sample): packed location ids (field 1), packed values (field 2), labels (field 3). */
  function EncSample(t: Tables, s: Sample): (r: Encoded)
    ensures GrowsStringsAndLocations(t, r.tables) && (Valid(t) ==> Valid(r.tables))
  {
    var ids := InternLocations(t, s.locations);
    var labels := EncLabels(ids.tables, s.labels);
    Encoded(labels.tables,
      DelimitedFields(1, Packed(ids.ids)) + DelimitedFields(2, Packed(s.values)) + labels.fields)
  }

  /** encode(id, Mapping): nothing is interned; the filename and build id are stored as numbers. */
  function EncMapping(id: nat, m: Mapping): seq<Field>
  {
    VarintFields(1, id) + VarintFields(2, m.memoryStart) + VarintFields(3, m.memoryLimit)
    + VarintFields(4, m.fileOffset) + VarintFields(5, m.filename) + VarintFields(6, m.buildId)
    + BoolFields(7, m.hasFunctions) + BoolFields(8, m.hasFilenames)
    + BoolFields(9, m.hasLineNumbers) + BoolFields(10, m.hasInlineFrames)
  }

  /** encode(Line): the interned function, then the line number. */
  function EncLine(t: Tables, l: Line): (r: Encoded)
    ensures GrowsFunctions(t, r.tables) && (Valid(t) ==> Valid(r.tables))
  {
    var f := InternFunction(t, l.func);
    Encoded(f.tables, VarintFields(1, f.id) + VarintFields(2, l.line))
  }

  /** The lines of a location, each as its own field 4. */
  function EncLines(t: Tables, ls: seq<Line>): (r: Encoded)
    ensures GrowsFunctions(t, r.tables) && (Valid(t) ==> Valid(r.tables))
    ensures AllIndex(r.fields, 4)
    decreases |ls|
  {
    if ls == [] then Encoded(t, [])
    else
      var init := EncLines(t, ls[..|ls| - 1]);
      var last := EncLine(init.tables, ls[|ls| - 1]);
      Encoded(last.tables, init.fields + DelimitedFields(4, Serialize(last.fields)))
  }

  /** encode(id, Location): id, interned mapping, address, lines, is_folded. */
  function EncLocation(t: Tables, id: nat, loc: Location): (r: Encoded)
    ensures GrowsMappingsAndFunctions(t, r.tables) && (Valid(t) ==> Valid(r.tables))
  {
    var m := InternMapping(t, loc.mapping);
    var lines := EncLines(m.tables, loc.lines);
    Encoded(lines.tables,
      VarintFields(1, id) + VarintFields(2, m.id) + VarintFields(3, loc.address)
      + lines.fields + BoolFields(5, loc.isFolded))
  }

  /** encode(id, Function): id, then name, system name and filename interned in that order. */
  function EncFunction(t: Tables, id: nat, f: Function): (r: Encoded)
    ensures GrowsStrings(t, r.tables) && (Valid(t) ==> Valid(r.tables))
  {
    var name := InternString(t, f.name);
    var systemName := InternString(name.tables, f.systemName);
    var filename := InternString(systemName.tables, f.filename);
    Encoded(filename.tables,
      VarintFields(1, id) + VarintFields(2, name.id) + VarintFields(3, systemName.id)
      + VarintFields(4, filename.id) + VarintFields(5, f.startLine))
  }

  /** The sample types, each as its own field 1. */
  function EncSampleTypes(t: Tables, vs: seq<ValueType>): (r: Encoded)
    ensures GrowsStrings(t, r.tables) && (Valid(t) ==> Valid(r.tables))
    ensures AllIndex(r.fields, 1)
    decreases |vs|
  {
    if vs == [] then Encoded(t, [])
    else
      var init := EncSampleTypes(t, vs[..|vs| - 1]);
      var last := EncValueType(init.tables, vs[|vs| - 1]);
      Encoded(last.tables, init.fields + DelimitedFields(1, Serialize(last.fields)))
  }

  /** The samples, each as its own field 2. */
  function EncSamples(t: Tables, ss: seq<Sample>): (r: Encoded)
    ensures GrowsStringsAndLocations(t, r.tables) && (Valid(t) ==> Valid(r.tables))
    ensures AllIndex(r.fields, 2)
    decreases |ss|
  {
    if ss == [] then Encoded(t, [])
    else
      var init := EncSamples(t, ss[..|ss| - 1]);
      var last := EncSample(init.tables, ss[|ss| - 1]);
      Encoded(last.tables, init.fields + DelimitedFields(2, Serialize(last.fields)))
  }

  /** The mapping table, entry i with id i + 1, each as field 3. */
  function EncMappingTable(ms: seq<Mapping>): (fs: seq<Field>)
    ensures |fs| == |ms| && AllIndex(fs, 3)
    decreases |ms|
  {
    if ms == [] then []
    else EncMappingTable(ms[..|ms| - 1]) + DelimitedFields(3, Serialize(EncMapping(|ms|, ms[|ms| - 1])))
  }

  /** The location table, entry i with id i + 1, each as field 4. */
  function EncLocationTable(t: Tables, locs: seq<Location>): (r: Encoded)
    ensures GrowsMappingsAndFunctions(t, r.tables) && (Valid(t) ==> Valid(r.tables))
    ensures |r.fields| == |locs| && AllIndex(r.fields, 4)
    decreases |locs|
  {
    if locs == [] then Encoded(t, [])
    else
      var init := EncLocationTable(t, locs[..|locs| - 1]);
      var last := EncLocation(init.tables, |locs|, locs[|locs| - 1]);
      Encoded(last.tables, init.fields + DelimitedFields(4, Serialize(last.fields)))
  }

  /** The function table, entry i with id i + 1, each as field 5. */
  function EncFunctionTable(t: Tables, fs: seq<Function>): (r: Encoded)
    ensures GrowsStrings(t, r.tables) && (Valid(t) ==> Valid(r.tables))
    ensures |r.fields| == |fs| && AllIndex(r.fields, 5)
    decreases |fs|
  {
    if fs == [] then Encoded(t, [])
    else
      var init := EncFunctionTable(t, fs[..|fs| - 1]);
      var last := EncFunction(init.tables, |fs|, fs[|fs| - 1]);
      ExtendsTrans(t, init.tables, last.tables);
      DelimitedFieldsIndex(5, Serialize(last.fields));
      AllIndexAppend(init.fields, DelimitedFields(5, Serialize(last.fields)), 5);
      Encoded(last.tables, init.fields + DelimitedFields(5, Serialize(last.fields)))
  }

  /** The comments, each interned and written as field 13. */
  function EncComments(t: Tables, cs: seq<Str>): (r: Encoded)
    ensures GrowsStrings(t, r.tables) && (Valid(t) ==> Valid(r.tables))
    ensures AllIndex(r.fields, 13)
    decreases |cs|
  {
    if cs == [] then Encoded(t, [])
    else
      var init := EncComments(t, cs[..|cs| - 1]);
      var last := InternString(init.tables, cs[|cs| - 1]);
      Encoded(last.tables, init.fields + VarintFields(13, last.id))
  }

  /** The string table, in index order, each written as field 6 even when empty. */
  function StringTable(ss: seq<Str>): (fs: seq<Field>)
    ensures |fs| == |ss| && AllIndex(fs, 6)
    ensures forall i :: 0 <= i < |ss| ==> fs[i] == BytesField(6, ss[i])
    decreases |ss|
  {
    if ss == [] then [] else StringTable(ss[..|ss| - 1]) + [BytesField(6, ss[|ss| - 1])]
  }

  /**
   * encode(Profile).  Locations are encoded (growing mappings and functions)
   * before the mapping and function tables are written; the period type and
   * the comments are encoded (growing strings) before the string table is
   * written; the sections are then written in field-number order.
   */
  function EncProfile(t: Tables, p: ProfileData): (r: Encoded)
    ensures Extends(t, r.tables) && (Valid(t) ==> Valid(r.tables))
  {
    var types := EncSampleTypes(t, p.sampleType);
    var samples := EncSamples(types.tables, p.sample);
    var locations := EncLocationTable(samples.tables, samples.tables.locations);
    var mappings := EncMappingTable(locations.tables.mappings);
    var functions := EncFunctionTable(locations.tables, locations.tables.functions);
    var periodType := EncValueType(functions.tables, p.periodType);
    var comments := EncComments(periodType.tables, p.comment);
    Encoded(comments.tables,
      types.fields + samples.fields + mappings + locations.fields + functions.fields
      + StringTable(comments.tables.strings)
      + VarintFields(7, p.dropFrames) + VarintFields(8, p.keepFrames)
      + VarintFields(9, p.timeNanos) + VarintFields(10, p.durationNanos)
      + DelimitedFields(11, Serialize(periodType.fields))
      + VarintFields(12, p.period) + comments.fields
      + VarintFields(14, p.defaultSampleType))
  }
}
