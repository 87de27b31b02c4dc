/**
 * Properties of the encoding of a whole profile: the sections come out in
 * field-number order, and ids are final, so that encoding again against the
 * tables the encoding left behind writes exactly the same fields and adds
 * nothing.  The latter is what makes every id written before a table is
 * emitted refer to an entry of the emitted table.
 */
module EncodingProofs {
  import opened Bytes
  import opened Wire
  import opened Pprof
  import opened Interning
  import opened EncodingSpec

  /** Sorted lists whose boundary is ordered concatenate to a sorted list. */
  lemma {:induction false} SortedAppend(a: seq<Field>, b: seq<Field>, k: nat)
    requires IndicesSorted(a) && (forall i :: 0 <= i < |a| ==> a[i].index <= k)
    requires AllIndex(b, k)
    ensures IndicesSorted(a + b)
    ensures forall i :: 0 <= i < |a + b| ==> (a + b)[i].index <= k
  {
  }

  /** A single section is sorted and bounded by its own field number. */
  lemma {:induction false} SortedSection(a: seq<Field>, k: nat)
    requires AllIndex(a, k)
    ensures IndicesSorted(a)
    ensures forall i :: 0 <= i < |a| ==> a[i].index <= k
  {
  }

  lemma {:induction false} VarintFieldsIndex(index: nat, n: nat)
    ensures AllIndex(VarintFields(index, n), index)
  {
  }

  /**
   * encode(Profile) writes its sections in field-number order: sample types
   * (1), samples (2), mappings (3), locations (4), functions (5), strings (6)
   * and then fields 7 to 14.
   */
  lemma {:induction false} ProfileFieldOrder(t: Tables, p: ProfileData)
    ensures IndicesSorted(EncProfile(t, p).fields)
  {
    var types := EncSampleTypes(t, p.sampleType);
    var samples := EncSamples(types.tables, p.sample);
    var locations := EncLocationTable(samples.tables, samples.tables.locations);
    var mappings := EncMappingTable(locations.tables.mappings);
    var functions := EncFunctionTable(locations.tables, locations.tables.functions);
    var periodType := EncValueType(functions.tables, p.periodType);
    var comments := EncComments(periodType.tables, p.comment);
    var acc := types.fields;
    SortedSection(acc, 1);
    SortedAppend(acc, samples.fields, 2);
    acc := acc + samples.fields;
    SortedAppend(acc, mappings, 3);
    acc := acc + mappings;
    SortedAppend(acc, locations.fields, 4);
    acc := acc + locations.fields;
    SortedAppend(acc, functions.fields, 5);
    acc := acc + functions.fields;
    SortedAppend(acc, StringTable(comments.tables.strings), 6);
    acc := acc + StringTable(comments.tables.strings);
    VarintFieldsIndex(7, p.dropFrames);
    SortedAppend(acc, VarintFields(7, p.dropFrames), 7);
    acc := acc + VarintFields(7, p.dropFrames);
    VarintFieldsIndex(8, p.keepFrames);
    SortedAppend(acc, VarintFields(8, p.keepFrames), 8);
    acc := acc + VarintFields(8, p.keepFrames);
    VarintFieldsIndex(9, p.timeNanos);
    SortedAppend(acc, VarintFields(9, p.timeNanos), 9);
    acc := acc + VarintFields(9, p.timeNanos);
    VarintFieldsIndex(10, p.durationNanos);
    SortedAppend(acc, VarintFields(10, p.durationNanos), 10);
    acc := acc + VarintFields(10, p.durationNanos);
    DelimitedFieldsIndex(11, Serialize(periodType.fields));
    SortedAppend(acc, DelimitedFields(11, Serialize(periodType.fields)), 11);
    acc := acc + DelimitedFields(11, Serialize(periodType.fields));
    VarintFieldsIndex(12, p.period);
    SortedAppend(acc, VarintFields(12, p.period), 12);
    acc := acc + VarintFields(12, p.period);
    SortedAppend(acc, comments.fields, 13);
    acc := acc + comments.fields;
    VarintFieldsIndex(14, p.defaultSampleType);
    SortedAppend(acc, VarintFields(14, p.defaultSampleType), 14);
    acc := acc + VarintFields(14, p.defaultSampleType);
    assert acc == EncProfile(t, p).fields;
  }

  // Each encoder, run again against any later state of the tables, writes the
  // same fields and adds nothing.

  lemma {:induction false} ValueTypeStable(t: Tables, v: ValueType, later: Tables)
    requires Extends(EncValueType(t, v).tables, later)
    ensures EncValueType(later, v) == Encoded(later, EncValueType(t, v).fields)
  {
    var ty := InternString(t, v.typeName);
    InternStringStable(t, v.typeName, later);
    InternStringStable(ty.tables, v.unit, later);
  }

  lemma {:induction false} LabelStable(t: Tables, l: Label, later: Tables)
    requires Extends(EncLabel(t, l).tables, later)
    ensures EncLabel(later, l) == Encoded(later, EncLabel(t, l).fields)
  {
    var key := InternString(t, l.key);
    var str := InternString(key.tables, l.str);
    InternStringStable(t, l.key, later);
    InternStringStable(key.tables, l.str, later);
    InternStringStable(str.tables, l.numUnit, later);
  }

  lemma {:induction false} LabelsStable(t: Tables, ls: seq<Label>, later: Tables)
    requires Extends(EncLabels(t, ls).tables, later)
    ensures EncLabels(later, ls) == Encoded(later, EncLabels(t, ls).fields)
    decreases |ls|
  {
    if ls != [] {
      var init := EncLabels(t, ls[..|ls| - 1]);
      LabelsStable(t, ls[..|ls| - 1], later);
      LabelStable(init.tables, ls[|ls| - 1], later);
    }
  }

  lemma {:induction false} LocationIdsStable(t: Tables, locs: seq<Location>, later: Tables)
    requires Extends(InternLocations(t, locs).tables, later)
    ensures InternLocations(later, locs) == InternedIds(later, InternLocations(t, locs).ids)
    decreases |locs|
  {
    if locs != [] {
      var init := InternLocations(t, locs[..|locs| - 1]);
      LocationIdsStable(t, locs[..|locs| - 1], later);
      InternLocationStable(init.tables, locs[|locs| - 1], later);
    }
  }

  lemma {:induction false} SampleStable(t: Tables, s: Sample, later: Tables)
    requires Extends(EncSample(t, s).tables, later)
    ensures EncSample(later, s) == Encoded(later, EncSample(t, s).fields)
  {
    var ids := InternLocations(t, s.locations);
    LocationIdsStable(t, s.locations, later);
    LabelsStable(ids.tables, s.labels, later);
  }

  lemma {:induction false} LineStable(t: Tables, l: Line, later: Tables)
    requires Extends(EncLine(t, l).tables, later)
    ensures EncLine(later, l) == Encoded(later, EncLine(t, l).fields)
  {
    InternFunctionStable(t, l.func, later);
  }

  lemma {:induction false} LinesStable(t: Tables, ls: seq<Line>, later: Tables)
    requires Extends(EncLines(t, ls).tables, later)
    ensures EncLines(later, ls) == Encoded(later, EncLines(t, ls).fields)
    decreases |ls|
  {
    if ls != [] {
      var init := EncLines(t, ls[..|ls| - 1]);
      LinesStable(t, ls[..|ls| - 1], later);
      LineStable(init.tables, ls[|ls| - 1], later);
    }
  }

  lemma {:induction false} LocationStable(t: Tables, id: nat, loc: Location, later: Tables)
    requires Extends(EncLocation(t, id, loc).tables, later)
    ensures EncLocation(later, id, loc) == Encoded(later, EncLocation(t, id, loc).fields)
  {
    var m := InternMapping(t, loc.mapping);
    InternMappingStable(t, loc.mapping, later);
    LinesStable(m.tables, loc.lines, later);
  }

  lemma {:induction false} FunctionStable(t: Tables, id: nat, f: Function, later: Tables)
    requires Extends(EncFunction(t, id, f).tables, later)
    ensures EncFunction(later, id, f) == Encoded(later, EncFunction(t, id, f).fields)
  {
    var name := InternString(t, f.name);
    var systemName := InternString(name.tables, f.systemName);
    InternStringStable(t, f.name, later);
    InternStringStable(name.tables, f.systemName, later);
    InternStringStable(systemName.tables, f.filename, later);
  }

  lemma {:induction false} SampleTypesStable(t: Tables, vs: seq<ValueType>, later: Tables)
    requires Extends(EncSampleTypes(t, vs).tables, later)
    ensures EncSampleTypes(later, vs) == Encoded(later, EncSampleTypes(t, vs).fields)
    decreases |vs|
  {
    if vs != [] {
      var init := EncSampleTypes(t, vs[..|vs| - 1]);
      SampleTypesStable(t, vs[..|vs| - 1], later);
      ValueTypeStable(init.tables, vs[|vs| - 1], later);
    }
  }

  lemma {:induction false} SamplesStable(t: Tables, ss: seq<Sample>, later: Tables)
    requires Extends(EncSamples(t, ss).tables, later)
    ensures EncSamples(later, ss) == Encoded(later, EncSamples(t, ss).fields)
    decreases |ss|
  {
    if ss != [] {
      var init := EncSamples(t, ss[..|ss| - 1]);
      SamplesStable(t, ss[..|ss| - 1], later);
      SampleStable(init.tables, ss[|ss| - 1], later);
    }
  }

  lemma {:induction false} LocationTableStable(t: Tables, locs: seq<Location>, later: Tables)
    requires Extends(EncLocationTable(t, locs).tables, later)
    ensures EncLocationTable(later, locs) == Encoded(later, EncLocationTable(t, locs).fields)
    decreases |locs|
  {
    if locs != [] {
      var init := EncLocationTable(t, locs[..|locs| - 1]);
      LocationTableStable(t, locs[..|locs| - 1], later);
      LocationStable(init.tables, |locs|, locs[|locs| - 1], later);
    }
  }

  lemma {:induction false} FunctionTableStable(t: Tables, fs: seq<Function>, later: Tables)
    requires Extends(EncFunctionTable(t, fs).tables, later)
    ensures EncFunctionTable(later, fs) == Encoded(later, EncFunctionTable(t, fs).fields)
    decreases |fs|
  {
    if fs != [] {
      var init := EncFunctionTable(t, fs[..|fs| - 1]);
      FunctionTableStable(t, fs[..|fs| - 1], later);
      FunctionStable(init.tables, |fs|, fs[|fs| - 1], later);
    }
  }

  lemma {:induction false} CommentsStable(t: Tables, cs: seq<Str>, later: Tables)
    requires Extends(EncComments(t, cs).tables, later)
    ensures EncComments(later, cs) == Encoded(later, EncComments(t, cs).fields)
    decreases |cs|
  {
    if cs != [] {
      var init := EncComments(t, cs[..|cs| - 1]);
      CommentsStable(t, cs[..|cs| - 1], later);
      InternStringStable(init.tables, cs[|cs| - 1], later);
    }
  }

  /**
   * Ids are final: encoding the same profile again against the tables that
   * encoding left behind writes the same bytes and adds no entry.  Every
   * string, mapping, location and function id written anywhere therefore
   * names the entry it names in the tables that are written out.
   */
  lemma {:induction false} ProfileFixpoint(t: Tables, p: ProfileData)
    ensures var r := EncProfile(t, p); EncProfile(r.tables, p) == r
  {
    var final := EncProfile(t, p).tables;
    var types := EncSampleTypes(t, p.sampleType);
    var samples := EncSamples(types.tables, p.sample);
    var locations := EncLocationTable(samples.tables, samples.tables.locations);
    var functions := EncFunctionTable(locations.tables, locations.tables.functions);
    var periodType := EncValueType(functions.tables, p.periodType);
    var comments := EncComments(periodType.tables, p.comment);
    assert final == comments.tables;
    assert Extends(periodType.tables, final);
    assert Extends(functions.tables, final) by { ExtendsTrans(functions.tables, periodType.tables, final); }
    assert Extends(locations.tables, final) by { ExtendsTrans(locations.tables, functions.tables, final); }
    assert Extends(samples.tables, final) by { ExtendsTrans(samples.tables, locations.tables, final); }
    assert Extends(types.tables, final) by { ExtendsTrans(types.tables, samples.tables, final); }
    assert EncSampleTypes(final, p.sampleType) == Encoded(final, types.fields) by {
      SampleTypesStable(t, p.sampleType, final);
    }
    assert EncSamples(final, p.sample) == Encoded(final, samples.fields) by {
      SamplesStable(types.tables, p.sample, final);
    }
    assert final.locations == samples.tables.locations && final.functions == locations.tables.functions;
    assert EncLocationTable(final, final.locations) == Encoded(final, locations.fields) by {
      LocationTableStable(samples.tables, samples.tables.locations, final);
    }
    assert EncFunctionTable(final, final.functions) == Encoded(final, functions.fields) by {
      FunctionTableStable(locations.tables, locations.tables.functions, final);
    }
    assert EncValueType(final, p.periodType) == Encoded(final, periodType.fields) by {
      ValueTypeStable(functions.tables, p.periodType, final);
    }
    assert EncComments(final, p.comment) == Encoded(final, comments.fields) by {
      CommentsStable(periodType.tables, p.comment, final);
    }
  }

  /** A fresh encoder leaves valid tables whose string table, written first among field 6, starts with "". */
  lemma {:induction false} FreshEncoderTables(p: ProfileData)
    ensures Valid(EncProfile(InitialTables, p).tables)
    ensures var ss := EncProfile(InitialTables, p).tables.strings;
      |ss| >= 1 && ss[0] == [] && StringTable(ss)[0] == BytesField(6, [])
  {
    EmptyStringIsZero();
  }
}
