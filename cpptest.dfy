/**
 * The checks of the C++ test (bindings/pprof.test.cc): `compare` between the
 * profile that was encoded and the one the test decoder read back, and the
 * "basic structure" and "deduplication" cases.
 */
module CppTest {
  import opened Bytes
  import opened Wire
  import opened Wrappers
  import opened Pprof
  import opened Interning
  import opened EncodingSpec
  import opened CppRoundTrip
  import Encoding
  import D = CppDecoder

  // ---------------------------------------------------------------------
  // `compare`: what the test checks of a decoded profile.

  /** `lookup`: `string_table.at(index)`, which fails when the index is out of range. */
  predicate Lookup(d: D.Profile, index: nat, s: Str)
  {
    index < |d.stringTable| && d.stringTable[index] == s
  }

  predicate ValueTypeMatches(d: D.Profile, v: ValueType, dv: D.ValueType)
  {
    Lookup(d, dv.typ, v.typeName) && Lookup(d, dv.unit, v.unit)
  }

  predicate FunctionMatches(d: D.Profile, f: Function, df: D.Function)
  {
    && Lookup(d, df.name, f.name) && Lookup(d, df.systemName, f.systemName)
    && Lookup(d, df.filename, f.filename) && df.startLine == f.startLine
  }

  /** The line number, then `get_function(function_id)`, whose own id must be that id. */
  predicate LineMatches(d: D.Profile, l: Line, dl: D.Line)
  {
    && dl.lineNumber == l.line
    && 1 <= dl.functionId <= |d.functions|
    && d.functions[dl.functionId - 1].id == dl.functionId
    && FunctionMatches(d, l.func, d.functions[dl.functionId - 1])
  }

  predicate LinesMatch(d: D.Profile, ls: seq<Line>, dls: seq<D.Line>)
  {
    |dls| == |ls| && forall j :: 0 <= j < |ls| ==> LineMatches(d, ls[j], dls[j])
  }

  /** All ten checks of a mapping reached through `get_mapping(id)`. */
  predicate MappingRecordMatches(m: Mapping, id: nat, dm: D.Mapping)
  {
    && dm.id == id
    && dm.memoryStart == m.memoryStart && dm.memoryLimit == m.memoryLimit
    && dm.fileOffset == m.fileOffset && dm.filename == m.filename && dm.buildId == m.buildId
    && dm.hasFunctions == m.hasFunctions && dm.hasFilenames == m.hasFilenames
    && dm.hasLineNumbers == m.hasLineNumbers && dm.hasInlineFrames == m.hasInlineFrames
  }

  predicate MappingMatches(d: D.Profile, m: Mapping, id: nat)
  {
    1 <= id <= |d.mappings| && MappingRecordMatches(m, id, d.mappings[id - 1])
  }

  /** The location's own checks; its mapping is compared only when its mapping id is not 0. */
  predicate LocationRecordMatches(d: D.Profile, loc: Location, id: nat, dl: D.Location)
  {
    && dl.id == id && dl.address == loc.address && dl.isFolded == loc.isFolded
    && (dl.mappingId != 0 ==> MappingMatches(d, loc.mapping, dl.mappingId))
    && LinesMatch(d, loc.lines, dl.lines)
  }

  /** `get_location(id)`, then the location's checks. */
  predicate LocationMatches(d: D.Profile, loc: Location, id: nat)
  {
    1 <= id <= |d.locations| && LocationRecordMatches(d, loc, id, d.locations[id - 1])
  }

  predicate LabelMatches(d: D.Profile, l: Label, dl: D.Label)
  {
    && Lookup(d, dl.key, l.key) && Lookup(d, dl.str, l.str)
    && dl.num == l.num && Lookup(d, dl.numUnit, l.numUnit)
  }

  predicate SampleMatches(d: D.Profile, s: Sample, ds: D.Sample)
  {
    && ds.values == s.values
    && |ds.locationIds| == |s.locations|
    && (forall i :: 0 <= i < |s.locations| ==> LocationMatches(d, s.locations[i], ds.locationIds[i]))
    && |ds.labels| == |s.labels|
    && (forall i :: 0 <= i < |s.labels| ==> LabelMatches(d, s.labels[i], ds.labels[i]))
  }

  /** `compare(t, expected, received)` for a whole profile. */
  predicate Matches(p: ProfileData, d: D.Profile)
  {
    && d.dropFrames == p.dropFrames && d.keepFrames == p.keepFrames
    && d.timeNanos == p.timeNanos && d.durationNanos == p.durationNanos
    && d.period == p.period && d.defaultSampleType == p.defaultSampleType
    && ValueTypeMatches(d, p.periodType, d.periodType)
    && |d.sampleTypes| == |p.sampleType|
    && (forall i :: 0 <= i < |p.sampleType| ==> ValueTypeMatches(d, p.sampleType[i], d.sampleTypes[i]))
    && |d.samples| == |p.sample|
    && (forall i :: 0 <= i < |p.sample| ==> SampleMatches(d, p.sample[i], d.samples[i]))
  }

  // ---------------------------------------------------------------------
  // Everything `compare` checks follows from the round trip.

  lemma {:induction false} LineMatchOf(T: Tables, d: D.Profile, l: Line, dl: D.Line)
    requires TablesDecoded(T, d) && LineIn(T, l, dl)
    ensures LineMatches(d, l, dl)
  {
    var k := dl.functionId - 1;
    assert FunctionIn(T, k + 1, T.functions[k], d.functions[k]);
  }

  lemma {:induction false} LocationMatchOf(T: Tables, d: D.Profile, loc: Location, id: nat)
    requires TablesDecoded(T, d) && loc != DefaultLocation && LocationAt(T, id, loc)
    ensures LocationMatches(d, loc, id)
  {
    var dl := d.locations[id - 1];
    assert LocationIn(T, id, loc, dl);
    if dl.mappingId != 0 {
      var k := dl.mappingId - 1;
      assert d.mappings[k] == MappingRecord(k + 1, T.mappings[k]);
    }
    forall j | 0 <= j < |loc.lines|
      ensures LineMatches(d, loc.lines[j], dl.lines[j])
    {
      LineMatchOf(T, d, loc.lines[j], dl.lines[j]);
    }
  }

  lemma {:induction false} SampleMatchOf(T: Tables, d: D.Profile, s: Sample, ds: D.Sample)
    requires TablesDecoded(T, d) && EncodableSample(s) && SampleIn(T, s, ds)
    ensures SampleMatches(d, s, ds)
  {
    forall i | 0 <= i < |s.locations|
      ensures LocationMatches(d, s.locations[i], ds.locationIds[i])
    {
      LocationMatchOf(T, d, s.locations[i], ds.locationIds[i]);
    }
  }

  lemma {:induction false} MatchesOf(p: ProfileData, T: Tables, d: D.Profile)
    requires Encodable(p) && ProfileDecoded(p, T, d)
    ensures Matches(p, d)
  {
    forall i | 0 <= i < |p.sample|
      ensures SampleMatches(d, p.sample[i], d.samples[i])
    {
      SampleMatchOf(T, d, p.sample[i], d.samples[i]);
    }
  }

  /**
   * Every profile whose sample types and samples the encoder writes as
   * non-empty records passes the test's `compare` after a fresh encoder
   * writes it and the test decoder reads it back.
   */
  lemma {:induction false} RoundTripMatches(p: ProfileData)
    requires Encodable(p)
    ensures var r := D.DecodeFields(D.Profile(), Serialize(EncProfile(InitialTables, p).fields), D.ProfileField);
      r.Ok? && Matches(p, r.value)
  {
    ProfileDecode(p);
    MatchesOf(p, EncProfile(InitialTables, p).tables, D.DecodeFields(D.Profile(), Serialize(EncProfile(InitialTables, p).fields), D.ProfileField).value);
  }

  // ---------------------------------------------------------------------
  // The two profile test cases, over the Profile object and the Encoder.

  /** The one sample of "basic structure": one location with one line, one label. */
  function BasicSample(f: Function, lineNumber: nat, values: seq<nat>, lbl: Label): Sample
  {
    Sample([Location([Line(f, lineNumber)])], values, [lbl])
  }

  /** The profile "basic structure" builds, as a value. */
  function BasicProfile(objectType: ValueType, heapType: ValueType, period: nat, timeNanos: nat,
                        durationNanos: nat, dropFrames: nat, keepFrames: nat, s: Sample): ProfileData
  {
    ProfileData([objectType, heapType], [s], dropFrames, keepFrames, timeNanos, durationNanos,
                heapType, period, [], 0)
  }

  /** Its sample types and its one sample are written as non-empty records. */
  lemma {:induction false} BasicEncodable(objectType: ValueType, heapType: ValueType, period: nat, timeNanos: nat,
                       durationNanos: nat, dropFrames: nat, keepFrames: nat,
                       f: Function, lineNumber: nat, lbl: Label, values: seq<nat>)
    requires EncodableValueType(objectType) && EncodableValueType(heapType)
    requires f != DefaultFunction && EncodableLabel(lbl)
    ensures Encodable(BasicProfile(objectType, heapType, period, timeNanos, durationNanos, dropFrames,
                                   keepFrames, BasicSample(f, lineNumber, values, lbl)))
  {
    var loc := Location([Line(f, lineNumber)]);
    assert loc != DefaultLocation by { assert |loc.lines| != |DefaultLocation.lines|; }
    assert LinesEncodable(loc);
  }

  /**
   * "basic structure": a profile with two sample types, the period type, the
   * four timing and frame scalars and one sample is encoded by a fresh Encoder,
   * the test decoder reads it back, and `compare` passes.
   */
  method BasicStructure(objectType: ValueType, heapType: ValueType, period: nat, timeNanos: nat,
                        durationNanos: nat, dropFrames: nat, keepFrames: nat,
                        f: Function, lineNumber: nat, lbl: Label, values: seq<nat>)
    returns (r: Result<D.Profile, D.DecodeError>)
    requires EncodableValueType(objectType) && EncodableValueType(heapType)
    requires f != DefaultFunction && EncodableLabel(lbl)
    ensures r.Ok?
    ensures Matches(BasicProfile(objectType, heapType, period, timeNanos, durationNanos, dropFrames,
                                 keepFrames, BasicSample(f, lineNumber, values, lbl)),
                    r.value)
  {
    var profile := new Profile(objectType, heapType);
    profile.period := period;
    profile.timeNanos := timeNanos;
    profile.durationNanos := durationNanos;
    profile.dropFrames := dropFrames;
    profile.keepFrames := keepFrames;
    var index := profile.AddSample(BasicSample(f, lineNumber, values, lbl));
    ghost var data := profile.Data();
    assert data == BasicProfile(objectType, heapType, period, timeNanos, durationNanos, dropFrames,
                                keepFrames, BasicSample(f, lineNumber, values, lbl));
    var encoder := new Encoding.Encoder();
    var encoded := encoder.EncodeProfile(profile);
    r := D.DecodeProfile(encoded);
    BasicDecodes(objectType, heapType, period, timeNanos, durationNanos, dropFrames, keepFrames,
                 f, lineNumber, lbl, values, data, encoded, r);
  }

  /** The bytes "basic profile structure" encodes decode, and compare equal to its profile. */
  lemma {:induction false} BasicDecodes(objectType: ValueType, heapType: ValueType, period: nat, timeNanos: nat,
                                        durationNanos: nat, dropFrames: nat, keepFrames: nat,
                                        f: Function, lineNumber: nat, lbl: Label, values: seq<nat>,
                                        p: ProfileData, encoded: Bytes, r: Result<D.Profile, D.DecodeError>)
    requires EncodableValueType(objectType) && EncodableValueType(heapType)
    requires f != DefaultFunction && EncodableLabel(lbl)
    requires p == BasicProfile(objectType, heapType, period, timeNanos, durationNanos, dropFrames,
                               keepFrames, BasicSample(f, lineNumber, values, lbl))
    requires encoded == Serialize(EncProfile(InitialTables, p).fields)
    requires r == D.DecodeFields(D.Profile(), encoded, D.ProfileField)
    ensures r.Ok? && Matches(p, r.value)
  {
    BasicEncodable(objectType, heapType, period, timeNanos, durationNanos, dropFrames, keepFrames,
                   f, lineNumber, lbl, values);
    RoundTripMatches(p);
  }

  /** The sample added twice by "deduplication": one location with one line, no labels. */
  function DedupSample(f: Function, lineNumber: nat, values: seq<nat>): Sample
  {
    Sample([Location([Line(f, lineNumber)])], values, [])
  }

  /** A sample with one location and no labels interns just that location. */
  lemma {:induction false} OneLocationSample(t: Tables, s: Sample)
    requires |s.locations| == 1 && s.labels == []
    ensures EncSample(t, s).tables == InternLocation(t, s.locations[0]).tables
  {
    assert s.locations[..0] == [];
    assert InternLocations(t, []).tables == t;
    var ids := InternLocations(t, s.locations);
    assert ids.tables == InternLocation(t, s.locations[0]).tables;
    assert EncLabels(ids.tables, []).tables == ids.tables;
  }

  lemma {:induction false} TwoSamples(t: Tables, s: Sample)
    ensures EncSamples(t, [s, s]).tables == EncSample(EncSample(t, s).tables, s).tables
  {
    assert [s, s][..1] == [s];
    assert [s][..0] == [];
    assert EncSamples(t, []).tables == t;
    assert EncSamples(t, [s]).tables == EncSample(t, s).tables;
  }

  /** A location with one line and no mapping interns just that line's function. */
  lemma {:induction false} OneLineLocation(t: Tables, loc: Location)
    requires |loc.lines| == 1 && loc.mapping == DefaultMapping
    ensures EncLocationTable(t, [loc]).tables == InternFunction(t, loc.lines[0].func).tables
  {
    assert [loc][..0] == [];
    assert loc.lines[..0] == [];
    assert EncLocationTable(t, []).tables == t;
    assert InternMapping(t, loc.mapping).tables == t;
    assert EncLines(t, []).tables == t;
    assert EncLines(t, loc.lines).tables == EncLine(t, loc.lines[0]).tables;
  }

  /** Two equal samples share one location, which holds one function and no mapping. */
  lemma {:induction false} DedupTables(p: ProfileData, f: Function, lineNumber: nat, values: seq<nat>)
    requires p.sample == [DedupSample(f, lineNumber, values), DedupSample(f, lineNumber, values)]
    requires f != DefaultFunction
    ensures var T := EncProfile(InitialTables, p).tables;
      T.locations == [Location([Line(f, lineNumber)])] && T.functions == [f] && T.mappings == []
  {
    var s := DedupSample(f, lineNumber, values);
    var loc := Location([Line(f, lineNumber)]);
    HeadTables(p);
    var t := EncSampleTypes(InitialTables, p.sampleType).tables;
    SameSampleTwice(t, s, loc);
    OneLineLocation(t.(locations := [loc]), loc);
  }

  /** The same one-location sample twice, over an empty location table, interns that location once. */
  lemma {:induction false} SameSampleTwice(t: Tables, s: Sample, loc: Location)
    requires t.locations == [] && s.locations == [loc] && s.labels == [] && loc != DefaultLocation
    ensures EncSamples(t, [s, s]).tables == t.(locations := [loc])
  {
    TwoSamples(t, s);
    OneLocationSample(t, s);
    var u := EncSample(t, s).tables;
    assert u == t.(locations := [loc]);
    OneLocationSample(u, s);
  }

  /** The profile "deduplication" builds, as a value. */
  function DedupProfile(objectType: ValueType, heapType: ValueType, s: Sample): ProfileData
  {
    ProfileData([objectType, heapType], [s, s], 0, 0, 0, 0, heapType, 0, [], 0)
  }

  /** Decoding "deduplication": two samples, both at location 1, and one location, function, no mapping. */
  lemma {:induction false} DedupDecode(objectType: ValueType, heapType: ValueType, f: Function, lineNumber: nat, values: seq<nat>)
    requires EncodableValueType(objectType) && EncodableValueType(heapType)
    requires f != DefaultFunction
    ensures var p := DedupProfile(objectType, heapType, DedupSample(f, lineNumber, values));
      var r := D.DecodeFields(D.Profile(), Serialize(EncProfile(InitialTables, p).fields), D.ProfileField);
      && r.Ok? && |r.value.samples| == 2 && |r.value.locations| == 1
      && |r.value.functions| == 1 && |r.value.mappings| == 0
      && r.value.samples[0].locationIds == [1] && r.value.samples[1].locationIds == [1]
  {
    var s := DedupSample(f, lineNumber, values);
    var p := DedupProfile(objectType, heapType, s);
    var loc := Location([Line(f, lineNumber)]);
    assert loc != DefaultLocation by { assert |loc.lines| != |DefaultLocation.lines|; }
    assert LinesEncodable(loc);
    assert Encodable(p);
    ProfileDecode(p);
    DedupTables(p, f, lineNumber, values);
    var T := EncProfile(InitialTables, p).tables;
    DedupShape(p, T, D.DecodeFields(D.Profile(), Serialize(EncProfile(InitialTables, p).fields), D.ProfileField).value, loc);
  }

  /** The shape of a decoded profile whose two samples are one location over tables holding only it. */
  lemma {:induction false} DedupShape(p: ProfileData, T: Tables, d: D.Profile, loc: Location)
    requires ProfileDecoded(p, T, d) && |p.sample| == 2
    requires p.sample[0].locations == [loc] && p.sample[1].locations == [loc]
    requires loc != DefaultLocation && T.locations == [loc] && |T.functions| == 1 && T.mappings == []
    ensures |d.samples| == 2 && |d.locations| == 1 && |d.functions| == 1 && |d.mappings| == 0
    ensures d.samples[0].locationIds == [1] && d.samples[1].locationIds == [1]
  {
    OneLocationIds(T, p.sample[0], d.samples[0], loc);
    OneLocationIds(T, p.sample[1], d.samples[1], loc);
  }

  /** A sample whose one location is the only entry of the table refers to it by id 1. */
  lemma {:induction false} OneLocationIds(T: Tables, s: Sample, ds: D.Sample, loc: Location)
    requires SampleIn(T, s, ds) && s.locations == [loc]
    requires loc != DefaultLocation && T.locations == [loc]
    ensures ds.locationIds == [1]
  {
    assert LocationAt(T, ds.locationIds[0], loc);
  }

  /**
   * "deduplication": the same sample added twice decodes as two samples over
   * one location, one function and no mapping.
   */
  method Deduplication(objectType: ValueType, heapType: ValueType, f: Function, lineNumber: nat,
                       values: seq<nat>)
    returns (r: Result<D.Profile, D.DecodeError>)
    requires EncodableValueType(objectType) && EncodableValueType(heapType)
    requires f != DefaultFunction
    ensures r.Ok?
    ensures |r.value.samples| == 2 && |r.value.locations| == 1
    ensures |r.value.functions| == 1 && |r.value.mappings| == 0
    ensures r.value.samples[0].locationIds == [1] && r.value.samples[1].locationIds == [1]
  {
    var profile := new Profile(objectType, heapType);
    var first := profile.AddSample(DedupSample(f, lineNumber, values));
    var second := profile.AddSample(DedupSample(f, lineNumber, values));
    ghost var data := profile.Data();
    assert data == DedupProfile(objectType, heapType, DedupSample(f, lineNumber, values));
    var encoder := new Encoding.Encoder();
    var encoded := encoder.EncodeProfile(profile);
    r := D.DecodeProfile(encoded);
    DedupDecode(objectType, heapType, f, lineNumber, values);
  }
}
