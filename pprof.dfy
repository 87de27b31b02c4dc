/**
 * The pprof profile data model (bindings/pprof.h).
 *
 * Every entity except Profile is an immutable value whose C++ `operator==`
 * compares all stored fields, which is exactly Dafny's structural equality on
 * datatypes.  Constructor defaults are the C++ default arguments.  Integer
 * fields are non-negative: the C++ encoder emits a single truncated byte for
 * a negative int64, which is outside this model.
 */
module Pprof {
  import opened Bytes

  /** A C++ std::string: a sequence of bytes. */
  type Str = Bytes

  /** Names a measurement axis, e.g. ("objects", "count"). */
  datatype ValueType = ValueType(typeName: Str, unit: Str)

  /** A sample annotation: a string value or a numeric value with a unit. */
  datatype Label = Label(key: Str, str: Str, num: nat, numUnit: Str)

  /** `Label(key, str)`: the numeric side keeps its defaults. */
  function StrLabel(key: Str, str: Str): (l: Label)
    ensures l.key == key && l.str == str
    ensures l.num == 0 && l.numUnit == []
  {
    Label(key, str, 0, [])
  }

  /** `Label(key, num, unit)`: the string side keeps its default. */
  function NumLabel(key: Str, num: nat, unit: Str): (l: Label)
    ensures l.key == key && l.num == num && l.numUnit == unit
    ensures l.str == []
  {
    Label(key, [], num, unit)
  }

  /** Binary/address-range metadata; the all-default value means "no mapping". */
  datatype Mapping = Mapping(
    memoryStart: nat := 0,
    memoryLimit: nat := 0,
    fileOffset: nat := 0,
    filename: nat := 0,
    buildId: nat := 0,
    hasFunctions: bool := false,
    hasFilenames: bool := false,
    hasLineNumbers: bool := false,
    hasInlineFrames: bool := false)

  const DefaultMapping: Mapping := Mapping()

  /** A symbol; the all-default value means "no function". */
  datatype Function = Function(
    name: Str := [],
    systemName: Str := [],
    filename: Str := [],
    startLine: nat := 0)

  const DefaultFunction: Function := Function()

  /** One call site of a Location. */
  datatype Line = Line(func: Function, line: nat)

  /** One stack frame; the parameter order is that of the C++ constructor. */
  datatype Location = Location(
    lines: seq<Line> := [],
    mapping: Mapping := DefaultMapping,
    address: nat := 0,
    isFolded: bool := false)

  const DefaultLocation: Location := Location()

  /** One measurement: a leaf-first stack, one value per sample type, labels. */
  datatype Sample = Sample(locations: seq<Location>, values: seq<nat>, labels: seq<Label> := [])

  /** The value held by a Profile object at one point in time. */
  datatype ProfileData = ProfileData(
    sampleType: seq<ValueType>,
    sample: seq<Sample>,
    dropFrames: nat,
    keepFrames: nat,
    timeNanos: nat,
    durationNanos: nat,
    periodType: ValueType,
    period: nat,
    comment: seq<Str>,
    defaultSampleType: nat)

  /** The top-level aggregate; it only grows, through AddSample. */
  class Profile {
    var sampleType: seq<ValueType>
    var sample: seq<Sample>
    var dropFrames: nat
    var keepFrames: nat
    var timeNanos: nat
    var durationNanos: nat
    var periodType: ValueType
    var period: nat
    var comment: seq<Str>
    var defaultSampleType: nat

    function Data(): ProfileData
      reads this
    {
      ProfileData(sampleType, sample, dropFrames, keepFrames, timeNanos,
                  durationNanos, periodType, period, comment, defaultSampleType)
    }

    /** The two sample types are fixed here; the period type is the second. */
    constructor (objectSampleType: ValueType, periodSampleType: ValueType)
      ensures sampleType == [objectSampleType, periodSampleType]
      ensures periodType == periodSampleType
      ensures sample == [] && comment == []
      ensures dropFrames == 0 && keepFrames == 0 && timeNanos == 0
      ensures durationNanos == 0 && period == 0 && defaultSampleType == 0
    {
      sampleType := [objectSampleType, periodSampleType];
      sample := [];
      dropFrames, keepFrames, timeNanos, durationNanos := 0, 0, 0, 0;
      periodType := periodSampleType;
      period := 0;
      comment := [];
      defaultSampleType := 0;
    }

    /** Appends `s` and returns its index; nothing else changes. */
    method AddSample(s: Sample) returns (index: nat)
      modifies this
      ensures sample == old(sample) + [s]
      ensures index == |old(sample)| && sample[index] == s
      ensures Data() == old(Data()).(sample := old(sample) + [s])
    {
      sample := sample + [s];
      index := |sample| - 1;
    }
  }

  /** Location's operator== compares mapping, address, is_folded and lines. */
  lemma {:induction false} LocationEquality(a: Location, b: Location)
    ensures a == b <==>
      a.mapping == b.mapping && a.address == b.address &&
      a.isFolded == b.isFolded && a.lines == b.lines
  {
  }

  /** The defaults that the dedup tables treat as "absent". */
  lemma {:induction false} DefaultsAreZero()
    ensures DefaultFunction.name == [] && DefaultFunction.systemName == []
    ensures DefaultFunction.filename == [] && DefaultFunction.startLine == 0
    ensures DefaultMapping.memoryStart == 0 && DefaultMapping.memoryLimit == 0
    ensures DefaultMapping.fileOffset == 0 && DefaultMapping.filename == 0
    ensures DefaultMapping.buildId == 0
    ensures !DefaultMapping.hasFunctions && !DefaultMapping.hasFilenames
    ensures !DefaultMapping.hasLineNumbers && !DefaultMapping.hasInlineFrames
    ensures DefaultLocation.lines == [] && DefaultLocation.address == 0
    ensures DefaultLocation.mapping == DefaultMapping && !DefaultLocation.isFolded
  {
  }

  /** A Location built from lines alone has default mapping, address and flag. */
  lemma {:induction false} LocationFromLines(lines: seq<Line>)
    ensures Location(lines).mapping == DefaultMapping
    ensures Location(lines).address == 0 && !Location(lines).isFolded
    ensures Location(lines) == DefaultLocation <==> lines == []
  {
  }
}
