# pprof-nodejs profile encoding, in Dafny

This project models the native core of pprof-nodejs. The core turns the heap
and CPU profiles of V8 into the protobuf bytes of the pprof `Profile`
message. The model proves properties of that code.

- **Data model** (`pprof.dfy`). These are the records of `bindings/pprof.h`:
  `ValueType`, `Label`, `Sample`, `Mapping`, `Function`, `Line`,
  `Location` and `Profile`. `Profile` is a class that only grows, through
  `AddSample`.
- **Encoder** (`tables.dfy`, `encoding_spec.dfy`, `encoder.dfy`,
  `encoding_proofs.dfy`, `wire.dfy`). The Encoder of `bindings/pprof.cc`
  has four interning tables: strings (0-based, with "" at 0), and mappings,
  locations and functions (1-based, with 0 for the all-default value).
  - The class `Encoding.Encoder` grows these tables in place. Its loops are
    proved against pure state-passing functions (`EncodingSpec`) that say
    which fields each `encode` overload writes.
  - `Wire` defines the varint and the tag bytes. It proves the varint
    correct and that the field list serializes compositionally.
- **Helpers** (`helpers.dfy`). These are `fallback`, `GetLocation` and
  `MakeSample` of `bindings/helpers.cc`.
- **Profilers** (`heap.dfy`, `cpu.dfy`). `HeapProfileEncoder::Execute` and
  `TimeProfileEncoder::Execute` each walk the V8 tree with a LIFO work list
  and a map from each node to its stack. Each method is proved to build the
  profile that a recursive function over the tree defines, and then to encode
  it. Lemmas about those functions state:
  - how many samples there are;
  - which samples there are: exactly one per allocation bucket, or per hit
    node outside the `(idle)` and `(program)` subtrees;
  - that every sample carries its node's stack, leaf first.
- **The C++ test decoder** (`cppdecode.dfy`, `cppdecode_proofs.dfy`,
  `cpptest.dfy`). This is the hand-written parser of
  `bindings/pprof.test.cc` and its `compare` checks.
  - The round trip is proved: every profile whose sample types and samples
    are written as non-empty records is encoded by a fresh Encoder, read
    back without error, and passes `compare`.
  - The "number encoding", "basic structure" and "deduplication" tests are
    stated as lemmas and methods.
- **The TypeScript test decoder** (`tsdecode.dfy`, `tsdecode_proofs.dfy`).
  This is `ts/test/decode.ts`. The loop and the per-class `decodeValue`
  functions are modelled.
  - Its length-delimited reader takes the first byte as the whole length
    (see Findings). The model keeps that reader and its loop as written,
    proves that they agree with a corrected reader while every payload is
    shorter than 128 bytes, and uses the corrected reader elsewhere.
  - With the corrected reader, the lemmas prove that the decoder reads any
    serialized field list back as a fold of `decodeValue`. They also prove
    that it reads back the encoder's value types, labels, lines and
    functions.

Integers are unbounded `nat`s. The C++ `size_t` and `unsigned` products of
the profilers are wrapped explicitly (modulo 2^64 and 2^32). The later
conversion of a heap weight to `int64_t` is not modelled (see Left out).
Strings are byte sequences.

## Model

| member | source | states |
|---|---|---|
| Pprof.StrLabel | bindings/pprof.h:49-50 | `Label(key, str)` sets key and str; num is 0 and num_unit is empty |
| Pprof.NumLabel | bindings/pprof.h:52-53 | `Label(key, num, unit)` sets key, num and unit; str stays empty |
| Pprof.Profile.constructor | bindings/pprof.h:184-188 | the two sample types are [object, period], the period type is the second one, and every other field is zero or empty |
| Pprof.Profile.AddSample | bindings/pprof.h:190-193 | appends the sample, returns its index (the old size), and changes nothing else |
| Pprof.LocationEquality | bindings/pprof.h:160-165 | two locations are equal exactly when mapping, address, is_folded and lines are equal |
| Pprof.DefaultsAreZero | bindings/pprof.h:82-158 | the default Function, Mapping and Location have every field zero, false or empty |
| Pprof.LocationFromLines | bindings/pprof.h:151-158 | a Location built from lines alone has the default mapping, address 0 and not folded; it is the default Location exactly when there are no lines |
| Wire.VarintLength | bindings/pprof.cc:66-76 | the length of the varint at the front of the bytes is at most their length, and at least 1 when they are not empty |
| Wire.VarintCorrect | bindings/pprof.cc:66-76 | the encoder's varint of n is well formed (continuation bit on every byte but the last) and its 7-bit groups reassemble to n |
| Wire.VarintLengthOfVarint | bindings/pprof.cc:66-76 | a varint followed by any bytes ends at its own terminator |
| Wire.VarintBoundaries | bindings/pprof.test.cc:813-860 | "number encoding": 0..127 take one byte, 128..255 are [n, 1], and 256 is [0x80, 0x02] |
| Wire.SerializeAppend | bindings/pprof.cc:217-255 | the bytes of concatenated field lists are the concatenation of their bytes |
| Wire.SerializeEmpty | bindings/pprof.cc:91-101 | a field list serializes to nothing exactly when it is empty (every field writes its tag) |
| Wire.PackedAppend | bindings/pprof.cc:147-150 | packed numbers of concatenated lists are the concatenation of the packed bytes |
| Wire.PackedNonEmpty | bindings/pprof.cc:153-157 | the packed bytes are empty exactly when there are no numbers, so the packed field is omitted exactly then |
| Interning.IndexOf | bindings/pprof.cc:31-33 | `std::find`: the position of the first element equal to x |
| Interning.InternString | bindings/pprof.cc:30-37 | `dedup(str)`: the id names str and no earlier entry does; a present string leaves the tables alone; an absent one is appended at id = old size; the tables only grow and stay duplicate-free |
| Interning.InternMapping | bindings/pprof.cc:38-46 | `dedup(mapping)`: the default mapping is 0 and changes nothing; any other is 1 + its first index, appended when absent |
| Interning.InternLocation | bindings/pprof.cc:47-55 | `dedup(location)`: the default location is 0; any other is 1 + its first index, appended when absent |
| Interning.InternFunction | bindings/pprof.cc:56-64 | `dedup(function)`: the default function is 0; any other is 1 + its first index, appended when absent |
| Interning.EmptyStringIsZero | bindings/pprof.cc:26-28 | a fresh encoder's tables are valid and "" is string 0 without adding anything |
| Interning.InternStringIdempotent | bindings/pprof.cc:30-37 | interning the same string again returns the same id and leaves the tables unchanged |
| Interning.InternMappingIdempotent | bindings/pprof.cc:38-46 | interning the same mapping again returns the same id and leaves the tables unchanged |
| Interning.InternLocationIdempotent | bindings/pprof.cc:47-55 | interning the same location again returns the same id and leaves the tables unchanged |
| Interning.InternFunctionIdempotent | bindings/pprof.cc:56-64 | interning the same function again returns the same id and leaves the tables unchanged |
| Interning.InternStringStable | bindings/pprof.cc:30-37 | once interned, a string keeps its id in every later state of the append-only tables |
| Interning.InternMappingStable | bindings/pprof.cc:38-46 | once interned, a mapping keeps its id in every later state of the tables |
| Interning.InternLocationStable | bindings/pprof.cc:47-55 | once interned, a location keeps its id in every later state of the tables |
| Interning.InternFunctionStable | bindings/pprof.cc:56-64 | once interned, a function keeps its id in every later state of the tables |
| EncodingSpec.EncValueType | bindings/pprof.cc:121-126 | encode(ValueType) only adds strings and keeps the tables valid |
| EncodingSpec.EncLabel | bindings/pprof.cc:127-134 | encode(Label) only adds strings and keeps the tables valid |
| EncodingSpec.EncLabels | bindings/pprof.cc:172-174 | the labels of a sample are all field 3 and only add strings |
| EncodingSpec.InternLocations | bindings/pprof.cc:138-145 | one id per location, each the id `dedup` gives that location in the final tables; only locations are added |
| EncodingSpec.EncSample | bindings/pprof.cc:135-176 | encode(Sample) only adds strings and locations and keeps the tables valid |
| EncodingSpec.EncLine | bindings/pprof.cc:191-196 | encode(Line) only adds functions and keeps the tables valid |
| EncodingSpec.EncLines | bindings/pprof.cc:202-204 | the lines of a location are all field 4 and only add functions |
| EncodingSpec.EncLocation | bindings/pprof.cc:197-207 | encode(id, Location) only adds mappings and functions and keeps the tables valid |
| EncodingSpec.EncFunction | bindings/pprof.cc:208-216 | encode(id, Function) only adds strings and keeps the tables valid |
| EncodingSpec.EncSampleTypes | bindings/pprof.cc:219-221 | the sample types are all field 1 and only add strings |
| EncodingSpec.EncSamples | bindings/pprof.cc:222-224 | the samples are all field 2 and only add strings and locations |
| EncodingSpec.EncMappingTable | bindings/pprof.cc:230-232 | one field 3 per mapping table entry |
| EncodingSpec.EncLocationTable | bindings/pprof.cc:226-229 | one field 4 per location table entry; only mappings and functions are added |
| EncodingSpec.EncFunctionTable | bindings/pprof.cc:234-236 | one field 5 per function table entry; only strings are added |
| EncodingSpec.EncComments | bindings/pprof.cc:238-241 | the comments are all field 13 and only add strings |
| EncodingSpec.StringTable | bindings/pprof.cc:243-245 | one field 6 per string, in index order, written even when the string is empty |
| EncodingSpec.EncProfile | bindings/pprof.cc:217-255 | encode(Profile) only extends the tables and keeps them valid |
| Encoding.Find | bindings/pprof.cc:31 | the linear search returns the first index holding x, or the size when there is none |
| Encoding.Encoder.constructor | bindings/pprof.cc:26-28 | a fresh encoder holds [""] and three empty tables |
| Encoding.Encoder.DedupString | bindings/pprof.cc:30-37 | the new tables and the id are those of `InternString` on the old tables |
| Encoding.Encoder.DedupMapping | bindings/pprof.cc:38-46 | the new tables and the id are those of `InternMapping` on the old tables |
| Encoding.Encoder.DedupLocation | bindings/pprof.cc:47-55 | the new tables and the id are those of `InternLocation` on the old tables |
| Encoding.Encoder.DedupFunction | bindings/pprof.cc:56-64 | the new tables and the id are those of `InternFunction` on the old tables |
| Encoding.Encoder.EncodeNumber | bindings/pprof.cc:66-76 | the seven-bit loop writes exactly `Varint(number)` |
| Encoding.Encoder.EncodeBool | bindings/pprof.cc:77-81 | a bool is the one-byte varint 1 or 0 |
| Encoding.Encoder.EncodeVarint | bindings/pprof.cc:82-90 | a varint field, omitted when the number is 0 |
| Encoding.Encoder.EncodeVarintBool | bindings/pprof.cc:82-90 | a bool field, omitted when false |
| Encoding.Encoder.EncodeLengthDelimited | bindings/pprof.cc:91-101 | a length-delimited field, omitted when the encoded value is empty |
| Encoding.Encoder.EncodeString | bindings/pprof.cc:114-120 | a string field, written even when empty |
| Encoding.Encoder.EncodeValueType | bindings/pprof.cc:121-126 | the bytes and the new tables are those of `EncValueType` |
| Encoding.Encoder.EncodeLabel | bindings/pprof.cc:127-134 | the bytes and the new tables are those of `EncLabel` |
| Encoding.Encoder.EncodeSample | bindings/pprof.cc:135-176 | the bytes and the new tables are those of `EncSample` |
| Encoding.Encoder.DedupLocations | bindings/pprof.cc:138-145 | the `std::transform` through dedup gives the ids and the tables of `InternLocations` |
| Encoding.Encoder.EncodePacked | bindings/pprof.cc:147-150 | the loop writes the numbers' varints back to back |
| Encoding.Encoder.EncodeLabels | bindings/pprof.cc:172-174 | the label loop's bytes and tables are those of `EncLabels` |
| Encoding.Encoder.EncodeMapping | bindings/pprof.cc:177-190 | the ten fields of a mapping record, each omitted when zero or false |
| Encoding.Encoder.EncodeLine | bindings/pprof.cc:191-196 | the bytes and the new tables are those of `EncLine` |
| Encoding.Encoder.EncodeLocation | bindings/pprof.cc:197-207 | the bytes and the new tables are those of `EncLocation` |
| Encoding.Encoder.EncodeLines | bindings/pprof.cc:202-204 | the line loop's bytes and tables are those of `EncLines` |
| Encoding.Encoder.EncodeFunction | bindings/pprof.cc:208-216 | the bytes and the new tables are those of `EncFunction` |
| Encoding.Encoder.EncodeSampleTypes | bindings/pprof.cc:219-221 | the sample-type loop's bytes and tables are those of `EncSampleTypes` |
| Encoding.Encoder.EncodeSamples | bindings/pprof.cc:222-224 | the sample loop's bytes and tables are those of `EncSamples` |
| Encoding.Encoder.EncodeLocationTable | bindings/pprof.cc:226-229 | the location loop writes the table as it stood before the loop, with ids 1, 2, ... |
| Encoding.Encoder.EncodeMappingTable | bindings/pprof.cc:230-232 | the mapping loop writes every entry with ids 1, 2, ... |
| Encoding.Encoder.EncodeFunctionTable | bindings/pprof.cc:234-236 | the function loop writes the table as it stood before the loop, with ids 1, 2, ... |
| Encoding.Encoder.EncodeComments | bindings/pprof.cc:238-241 | the comment loop's bytes and tables are those of `EncComments` |
| Encoding.Encoder.EncodeStringTable | bindings/pprof.cc:243-245 | the string-table loop writes every string, in index order |
| Encoding.Encoder.EncodeProfile | bindings/pprof.cc:217-255 | the bytes and the final tables are those of `EncProfile`, statement order included |
| Encoding.ProfileBytes | bindings/pprof.cc:217-255 | the output is, in order, sample types, samples, the mapping table, the location table, the function table, the string table, fields 7-10, the period type, the period, the comments and field 14 |
| EncodingProofs.VarintFieldsIndex | bindings/pprof.cc:82-90 | a varint field carries the index it was given |
| EncodingProofs.DelimitedFieldsIndex | bindings/pprof.cc:91-101 | a length-delimited field carries the index it was given |
| EncodingProofs.ProfileFieldOrder | bindings/pprof.cc:217-255 | the profile's field numbers never decrease: mappings (3) are written before locations (4) although the location bytes are produced first |
| EncodingProofs.ValueTypeStable | bindings/pprof.cc:121-126 | encoding a value type again with any later tables writes the same fields and adds nothing |
| EncodingProofs.LabelStable | bindings/pprof.cc:127-134 | encoding a label again with later tables writes the same fields and adds nothing |
| EncodingProofs.LabelsStable | bindings/pprof.cc:172-174 | the same, for a sample's labels |
| EncodingProofs.LocationIdsStable | bindings/pprof.cc:138-145 | a sample's location ids are the same in any later tables |
| EncodingProofs.SampleStable | bindings/pprof.cc:135-176 | encoding a sample again with later tables writes the same fields and adds nothing |
| EncodingProofs.LineStable | bindings/pprof.cc:191-196 | the same, for a line |
| EncodingProofs.LinesStable | bindings/pprof.cc:202-204 | the same, for a location's lines |
| EncodingProofs.LocationStable | bindings/pprof.cc:197-207 | the same, for a location record |
| EncodingProofs.FunctionStable | bindings/pprof.cc:208-216 | the same, for a function record |
| EncodingProofs.SampleTypesStable | bindings/pprof.cc:219-221 | the same, for the sample types |
| EncodingProofs.SamplesStable | bindings/pprof.cc:222-224 | the same, for the samples |
| EncodingProofs.LocationTableStable | bindings/pprof.cc:226-229 | the same, for the location table |
| EncodingProofs.FunctionTableStable | bindings/pprof.cc:234-236 | the same, for the function table |
| EncodingProofs.CommentsStable | bindings/pprof.cc:238-241 | the same, for the comments |
| EncodingProofs.ProfileFixpoint | bindings/pprof.cc:217-255 | encoding the same profile again with the tables the first encoding left writes the same bytes and adds nothing |
| EncodingProofs.FreshEncoderTables | bindings/pprof.cc:26-28 | after a fresh encoder writes a profile, its tables are valid and its string table starts with "" |
| Helpers.Fallback | bindings/helpers.cc:21-23 | a, unless a is empty, in which case b; the result is empty only when both are |
| Helpers.GetLocation | bindings/helpers.cc:43-50 | one line whose function is (name, systemName, scriptName, start line 0), at lineNumber, with no mapping, address 0, not folded, and never the default Location |
| Helpers.MakeSample | bindings/helpers.cc:53-57 | the given stack, exactly the two values, no labels |
| Helpers.GetLocationInternsNonZero | bindings/helpers.cc:43-50 | every frame GetLocation builds gets a location id of at least 1 |
| HeapProfiler.WorkSamplesFresh | bindings/heap-profiler.cc:103-106 | storing a fresh node's stack does not change what the older work-list entries produce |
| HeapProfiler.PushChild | bindings/heap-profiler.cc:103-106 | a pushed child's subtree comes out before everything already pending (LIFO) |
| HeapProfiler.PopStep | bindings/heap-profiler.cc:79-94 | popping the top node emits that node's samples, then pushes its children; the work measure drops |
| HeapProfiler.PushStep | bindings/heap-profiler.cc:103-106 | one push keeps the invariant relating the work list to the samples still to come |
| HeapProfiler.PushChildren | bindings/heap-profiler.cc:70-73 | the child loop leaves a work list whose samples are the children's subtrees, last child first, ahead of what was pending |
| HeapProfiler.AddBucketSamples | bindings/heap-profiler.cc:97-100 | one sample (count, size * count mod 2^64) per allocation bucket, in bucket order, with the node's stack; nothing else changes |
| HeapProfiler.HeapProfileEncoder.constructor | bindings/heap-profiler.cc:50-59 | stores the tree, the interval, the clock reading and the external-memory figure |
| HeapProfiler.HeapProfileEncoder.Execute | bindings/heap-profiler.cc:61-111 | the output is the encoding, by a fresh Encoder, of `HeapProfile`: objects/count and space/bytes, the start time, the interval, the external sample first, then every node's bucket samples |
| HeapProfiler.HeapProfileEncoder.BuildProfile | bindings/heap-profiler.cc:62-107 | the profile Execute fills in before encoding it is exactly `HeapProfile` of the tree, the interval, the start time and the external-memory figure |
| HeapProfiler.DrainWorkList | bindings/heap-profiler.cc:79-107 | the while loop appends exactly the samples the work list stands for |
| HeapProfiler.BucketSamplesCount | bindings/heap-profiler.cc:97-100 | one sample per bucket |
| HeapProfiler.NodeSamplesCount | bindings/heap-profiler.cc:79-107 | a subtree yields one sample per bucket of each of its nodes |
| HeapProfiler.ChildrenSamplesCount | bindings/heap-profiler.cc:79-107 | a list of subtrees yields one sample per bucket in them |
| HeapProfiler.HeapSampleCount | bindings/heap-profiler.cc:61-111 | the profile has 1 + (number of buckets below the root) samples |
| HeapProfiler.HeapProfileHeader | bindings/heap-profiler.cc:62-76 | sample types [objects/count, space/bytes], period type space/bytes, time = start time, period = interval, and the first sample is ((external) frame, [externalMemory, 1]) |
| HeapProfiler.PathStackShape | bindings/heap-profiler.cc:89-94 | a node d levels down has d + 1 frames above its parent's stack, its own frame first |
| HeapProfiler.BucketSamplesMembers | bindings/heap-profiler.cc:97-100 | a bucket sample is exactly one built from one of the node's buckets |
| HeapProfiler.NodeSamplesMembers | bindings/heap-profiler.cc:79-107 | a sample of a subtree is exactly a bucket of one of its nodes, with that node's full stack |
| HeapProfiler.ChildrenSamplesMembers | bindings/heap-profiler.cc:79-107 | the same, for a list of subtrees |
| HeapProfiler.HeapSamplesFromBuckets | bindings/heap-profiler.cc:61-111 | every sample after the external one is a bucket of some node below the root, with that node's stack, and every bucket yields one |
| TimeProfiler.WorkSamplesFresh | bindings/time-profiler.cc:104-109 | storing a fresh node's stack does not change what the older entries produce |
| TimeProfiler.PushChild | bindings/time-profiler.cc:104-109 | a pushed child's subtree comes out before everything already pending (LIFO) |
| TimeProfiler.PushStep | bindings/time-profiler.cc:104-109 | one push keeps the work-list invariant |
| TimeProfiler.PopPruned | bindings/time-profiler.cc:75-101 | popping a pruned top node (idle or program) emits nothing and pushes none of its children: the rest of the work list accounts for every sample still to come |
| TimeProfiler.PopKept | bindings/time-profiler.cc:75-101 | popping a top node that is not pruned moves its own sample (only when hit) to the profile and puts its children's samples ahead of the rest of the work list, so nothing is lost or reordered |
| TimeProfiler.PushChildren | bindings/time-profiler.cc:67-72 | the child loop leaves a work list whose samples are the children's subtrees, last child first |
| TimeProfiler.TimeProfileEncoder.BuildProfile | bindings/time-profiler.cc:59-110 | the profile Execute fills in before encoding it is exactly `TimeProfile` of the tree, the interval, the clock reading and the start and end times |
| TimeProfiler.DrainWorkList | bindings/time-profiler.cc:75-110 | the while loop appends exactly the samples the work list stands for |
| TimeProfiler.TimeProfileEncoder.constructor | bindings/time-profiler.cc:35-43 | stores the tree, the interval, the clock reading and the profile's start and end |
| TimeProfiler.TimeProfileEncoder.Execute | bindings/time-profiler.cc:53-114 | the output is the encoding, by a fresh Encoder, of `TimeProfile`: sample/count and wall/nanoseconds, start time, interval, duration (end - start) * 1000, then the samples of the tree |
| TimeProfiler.NodeSamplesCount | bindings/time-profiler.cc:75-110 | a subtree yields one sample per hit node outside the pruned subtrees |
| TimeProfiler.ChildrenSamplesCount | bindings/time-profiler.cc:75-110 | the same, for a list of subtrees |
| TimeProfiler.TimeSampleCount | bindings/time-profiler.cc:53-114 | the profile has one sample per hit node below the root outside the pruned subtrees |
| TimeProfiler.PrunedSubtreeSilent | bindings/time-profiler.cc:86 | an `(idle)` or `(program)` node yields no sample, whatever its subtree holds |
| TimeProfiler.PathStackShape | bindings/time-profiler.cc:89-94 | a node d levels down has d + 1 frames above its parent's stack, its own frame first |
| TimeProfiler.NodeSamplesMembers | bindings/time-profiler.cc:75-110 | a sample of a subtree is exactly one of a hit node with no pruned ancestor: its stack, [hitCount, hitCount * interval mod 2^32] |
| TimeProfiler.ChildrenSamplesMembers | bindings/time-profiler.cc:75-110 | the same, for a list of subtrees |
| TimeProfiler.TimeSamplesFromNodes | bindings/time-profiler.cc:53-114 | every sample of the profile comes from one hit, unpruned node below the root, and every such node yields one |
| CppDecoder.Slice | bindings/pprof.test.cc:38-44 | `slice`: a non-negative end is a length from start; a negative end counts back from one past the end; the result is clamped to the buffer |
| CppDecoder.SliceRest | bindings/pprof.test.cc:38-44 | the default end of -1 keeps everything from start on |
| CppDecoder.SignedChar | bindings/pprof.test.cc:171 | a `char` read as `int` lies in -128..127 and agrees with the byte modulo 256 |
| CppDecoder.MakeFieldFlag | bindings/pprof.test.cc:64-67 | `FieldFlag(int)`: field * 8 + mode == flag with 0 <= mode < 8 |
| CppDecoder.NewFieldFlag | bindings/pprof.test.cc:69-79 | `FieldFlag::New` accepts exactly wire types 0 and 2, and otherwise reports the field and the mode |
| CppDecoder.NewFieldFlagOfTag | bindings/pprof.test.cc:69-79 | a tag the encoder writes for a field below 16 reads back as that field and wire type |
| CppDecoder.VarintLengthTerminated | bindings/pprof.test.cc:110-119 | the varint at the front ends at the first byte without the continuation bit |
| CppDecoder.VarintLengthUnterminated | bindings/pprof.test.cc:110-127 | without a terminator, the whole buffer is taken |
| CppDecoder.VarintPrefix | bindings/pprof.test.cc:129-137 | bytes after the terminator change neither the length nor the value |
| CppDecoder.ReadVarint | bindings/pprof.test.cc:129-137 | the value of the encoder's varint followed by anything is the number encoded |
| CppDecoder.GetNumberWithSize | bindings/pprof.test.cc:87-97 | the value and the length of the varint at the front |
| CppDecoder.GetNumber | bindings/pprof.test.cc:129-137 | the value of the varint at the front, stopping after the terminator |
| CppDecoder.NumbersRun | bindings/pprof.test.cc:139-150 | a run of continuation bytes ended by a terminator is one number, followed by the numbers of the rest |
| CppDecoder.GetNumbers | bindings/pprof.test.cc:139-150 | `get_numbers` returns `Numbers`: one number per terminated varint, and none for a trailing unterminated run |
| CppDecoder.NumbersScanned | bindings/pprof.test.cc:139-150 | the left-to-right scan of `get_numbers`, which cuts a number at each byte below 0x80, yields exactly `Numbers` of the whole buffer |
| CppDecoder.NoTerminatorNoNumbers | bindings/pprof.test.cc:139-150 | a trailing run of bytes with no terminator holds no number; `decodeBigNumbers` (ts/test/decode.ts:20-32) drops it the same way |
| CppDecoder.NumbersOfPacked | bindings/pprof.test.cc:139-150 | splitting packed varints gives back exactly the numbers packed |
| CppDecoder.ValueOf | bindings/pprof.test.cc:110-127 | the value `get_value` returns lies inside the buffer, right after its length prefix |
| CppDecoder.GetValue | bindings/pprof.test.cc:110-127 | the loop and the length read give `ValueOf` |
| CppDecoder.ValueOfVarint | bindings/pprof.test.cc:112-119 | a varint field's value is exactly the encoder's varint |
| CppDecoder.ValueOfDelimited | bindings/pprof.test.cc:120-123 | a length-delimited field's value is exactly the payload, after a prefix as long as the length's varint |
| CppDecoder.DecodeStep | bindings/pprof.test.cc:170-189 | one loop turn with a good flag and a clean field update advances past the value and its prefix |
| CppDecoder.DecodeFlagError | bindings/pprof.test.cc:171-172 | a bad flag ends the loop with its error |
| CppDecoder.DecodeNestedError | bindings/pprof.test.cc:283-284 | a nested message that fails ends the loop with its error |
| CppDecoder.DecodeValueType | bindings/pprof.test.cc:166-192 | `ValueType::decode` is the fold of its field updates over the buffer |
| CppDecoder.DecodeLabel | bindings/pprof.test.cc:210-244 | `Label::decode` is the fold of its field updates |
| CppDecoder.DecodeSample | bindings/pprof.test.cc:260-292 | `Sample::decode`: packed ids and values replace, and labels are appended |
| CppDecoder.DecodeMapping | bindings/pprof.test.cc:322-380 | `Mapping::decode` is the fold of its ten field updates |
| CppDecoder.DecodeFunction | bindings/pprof.test.cc:400-438 | `Function::decode` is the fold of its five field updates |
| CppDecoder.DecodeLine | bindings/pprof.test.cc:452-478 | `Line::decode` is the fold of its two field updates |
| CppDecoder.DecodeLocation | bindings/pprof.test.cc:498-538 | `Location::decode`: the scalars are set and the lines appended |
| CppDecoder.DecodeProfile | bindings/pprof.test.cc:576-662 | `Profile::decode`: repeated fields append in wire order and the rest are set |
| CppRoundTrip.DecodeVarintField | bindings/pprof.test.cc:170-177 | a varint field the encoder wrote is read as its tag, its varint, and the bytes after it |
| CppRoundTrip.DecodeBytesField | bindings/pprof.test.cc:170-177 | a length-delimited field is read as its tag, its length, its payload, and the bytes after it |
| CppRoundTrip.DecodeField | bindings/pprof.test.cc:170-177 | either kind of field is read back exactly |
| CppRoundTrip.DecodeSerialized | bindings/pprof.test.cc:170-189 | decoding serialized fields with small indices is the fold of the field updates over their payloads |
| CppRoundTrip.FoldAppend | bindings/pprof.test.cc:170-189 | the fold over a concatenation is the fold over the second part from where the first ended |
| CppRoundTrip.FoldVarints | bindings/pprof.cc:82-90 | an omitted zero changes nothing; otherwise the one field is applied |
| CppRoundTrip.FoldDelimited | bindings/pprof.cc:91-101 | an omitted empty payload changes nothing; otherwise the one field is applied |
| CppRoundTrip.VarintValueOf | bindings/pprof.test.cc:129-137 | `get_number` of the encoder's varint is the number encoded |
| CppRoundTrip.MappingRecord | bindings/pprof.test.cc:322-380 | the decoded mapping record carries the id and every field as stored |
| CppRoundTrip.LocationAtExtends | bindings/pprof.cc:47-55 | a location's id stays valid in later tables |
| CppRoundTrip.InternedStr | bindings/pprof.cc:30-37 | an interned string names itself in any later tables, and a non-empty string never gets id 0 |
| CppRoundTrip.ValueTypeDecode | bindings/pprof.test.cc:166-192 | an encoded value type decodes to the ids of its type and unit strings |
| CppRoundTrip.LabelDecode | bindings/pprof.test.cc:210-244 | an encoded label decodes to the ids of its strings and its number |
| CppRoundTrip.LabelNumbers | bindings/pprof.test.cc:210-244 | the four numeric fields of a label decode into a label with those numbers |
| CppRoundTrip.LabelNonEmpty | bindings/pprof.cc:127-134 | a label other than the all-default one writes at least one field |
| CppRoundTrip.LabelsDecode | bindings/pprof.test.cc:282-286 | a sample's labels decode, in order, one record each |
| CppRoundTrip.SampleDecode | bindings/pprof.test.cc:260-292 | an encoded sample decodes to its location ids, its values and its labels |
| CppRoundTrip.SamplesDecode | bindings/pprof.test.cc:596-601 | the samples decode, in order, one record each |
| CppRoundTrip.SampleTypesDecode | bindings/pprof.test.cc:590-595 | the sample types decode, in order, one record each |
| CppRoundTrip.InternedLocationsEncodable | bindings/pprof.cc:138-145 | a sample's location ids name locations whose lines name functions |
| CppRoundTrip.SampleLocationsEncodable | bindings/pprof.cc:222-224 | the same holds for all locations the samples add |
| CppRoundTrip.MappingDecode | bindings/pprof.test.cc:322-380 | an encoded mapping record decodes to its id and its stored fields |
| CppRoundTrip.MappingFlags | bindings/pprof.test.cc:360-375 | the four flags of a mapping record decode to the stored booleans |
| CppRoundTrip.FlagAfter | bindings/pprof.test.cc:360-375 | one flag field sets its flag and nothing else |
| CppRoundTrip.MappingNumbers | bindings/pprof.test.cc:336-359 | the six numeric fields of a mapping record decode to their numbers |
| CppRoundTrip.MappingTableDecode | bindings/pprof.test.cc:602-607 | the mapping table decodes, one record per entry with ids 1, 2, ... |
| CppRoundTrip.InternedFunction | bindings/pprof.cc:56-64 | an interned non-default function names itself, 1-based, in any later tables |
| CppRoundTrip.InternedMapping | bindings/pprof.cc:38-46 | an interned mapping names itself in later tables; the default mapping has id 0 |
| CppRoundTrip.LineNumbers | bindings/pprof.test.cc:452-478 | the two numeric fields of a line record decode to those numbers |
| CppRoundTrip.LineDecode | bindings/pprof.test.cc:452-478 | an encoded line decodes to its line number and the 1-based id of its function |
| CppRoundTrip.LineStep | bindings/pprof.test.cc:524-529 | one more line record appends one decoded line |
| CppRoundTrip.LinesDecode | bindings/pprof.test.cc:524-529 | a location's lines decode, in order, one record each |
| CppRoundTrip.LocationNumbers | bindings/pprof.test.cc:512-523 | the three opening numeric fields of a location record decode to those numbers |
| CppRoundTrip.LocationDecode | bindings/pprof.test.cc:498-538 | an encoded location record decodes to its id, mapping id, address, lines and folded flag |
| CppRoundTrip.LocationTail | bindings/pprof.test.cc:524-533 | the lines and the folded flag after the opening numbers decode as written |
| CppRoundTrip.LocationTableDecode | bindings/pprof.test.cc:608-613 | the location table decodes, one record per entry with ids 1, 2, ... |
| CppRoundTrip.FunctionDecode | bindings/pprof.test.cc:400-438 | an encoded function record decodes to its id, the ids of its three strings and its start line |
| CppRoundTrip.FunctionNumbers | bindings/pprof.test.cc:400-438 | the five numeric fields of a function record decode to those numbers |
| CppRoundTrip.FunctionTableDecode | bindings/pprof.test.cc:614-619 | the function table decodes, one record per entry with ids 1, 2, ... |
| CppRoundTrip.StringTableDecode | bindings/pprof.test.cc:620-623 | the string table comes back entry for entry, "" included |
| CppRoundTrip.WrittenComments | bindings/pprof.cc:238-241 | the comments written are exactly the non-empty ones, in order ("" interns to 0 and is omitted) |
| CppRoundTrip.CommentsDecode | bindings/pprof.test.cc:650-653 | each written comment comes back, in order, as the id of its string |
| CppRoundTrip.CommentStep | bindings/pprof.test.cc:650-653 | one more comment appends its id, unless it is "" |
| CppRoundTrip.HeadTables | bindings/pprof.cc:217-245 | the sections written after the function table add nothing the earlier sections' records depend on |
| CppRoundTrip.FrontDecode | bindings/pprof.test.cc:590-607 | the sample types, the samples and the mapping table decode into the encoder's records |
| CppRoundTrip.BackDecode | bindings/pprof.test.cc:608-619 | the location and function tables decode into the encoder's records |
| CppRoundTrip.HeadDecode | bindings/pprof.test.cc:576-623 | the six tables at the head of the encoding decode into the encoder's records |
| CppRoundTrip.WithScalar | bindings/pprof.test.cc:624-656 | setting numeric profile field k changes that field and nothing else |
| CppRoundTrip.ScalarAfter | bindings/pprof.test.cc:624-656 | a numeric profile field decodes to its number, or stays 0 when omitted |
| CppRoundTrip.ScalarsDecode | bindings/pprof.test.cc:624-639 | drop_frames, keep_frames, time_nanos and duration_nanos decode to their values |
| CppRoundTrip.PeriodStep | bindings/pprof.test.cc:640-645 | the period type decodes to its string ids, and is omitted when empty |
| CppRoundTrip.TailDecode | bindings/pprof.test.cc:624-656 | fields 7 to 14 decode into the profile's scalars, period type and comments |
| CppRoundTrip.ProfileFold | bindings/pprof.test.cc:576-662 | the fields of an encoded profile fold into a decoded profile that matches it field by field |
| CppRoundTrip.ProfileDecode | bindings/pprof.test.cc:576-662 | a profile a fresh encoder writes decodes without error into the encoder's tables and the profile's own fields |
| CppTest.LineMatchOf | bindings/pprof.test.cc:714-722 | a decoded line passes `compare` for its line |
| CppTest.LocationMatchOf | bindings/pprof.test.cc:742-754 | a decoded location id passes `compare` for its location: id, address, is_folded, its mapping when the id is not 0, and its lines |
| CppTest.SampleMatchOf | bindings/pprof.test.cc:765-771 | a decoded sample passes `compare`: values, location ids and labels |
| CppTest.MatchesOf | bindings/pprof.test.cc:792-807 | a decoded profile passes the profile `compare` |
| CppTest.RoundTripMatches | bindings/pprof.test.cc:668-807 | every profile whose sample types and samples are non-empty records is encoded, decoded without error, and passes `compare` |
| CppTest.BasicEncodable | bindings/pprof.test.cc:862-877 | the "basic structure" profile has non-empty sample types and sample |
| CppTest.BasicStructure | bindings/pprof.test.cc:862-893 | "basic structure": the profile built through `Profile` and encoded by a fresh `Encoder` parses and passes `compare` |
| CppTest.OneLocationSample | bindings/pprof.cc:135-176 | a sample with one location and no labels interns just that location |
| CppTest.TwoSamples | bindings/pprof.cc:222-224 | two samples intern their locations in order |
| CppTest.OneLineLocation | bindings/pprof.cc:197-207 | a location with one line and no mapping interns just that line's function |
| CppTest.DedupTables | bindings/pprof.test.cc:895-911 | two equal samples leave one location, one function and no mapping in the tables |
| CppTest.SameSampleTwice | bindings/pprof.cc:47-55 | the same one-location sample twice interns that location once |
| CppTest.DedupDecode | bindings/pprof.test.cc:895-926 | the decoded "deduplication" profile has two samples, both at location 1, one location, one function and no mapping |
| CppTest.DedupShape | bindings/pprof.test.cc:922-925 | a decoded profile over tables holding one location has that shape |
| CppTest.OneLocationIds | bindings/pprof.test.cc:922-923 | a sample whose one location is the table's only entry refers to it by id 1 |
| CppTest.Deduplication | bindings/pprof.test.cc:895-926 | "deduplication": the same sample added twice parses as two samples at location 1, one location, one function, no mapping |
| TsDecoder.DecodeFieldFlag | ts/test/decode.ts:6-10 | field * 8 + mode is the byte, with mode below 8 |
| TsDecoder.FieldFlagOfTag | ts/test/decode.ts:6-10 | a tag the encoder writes for a field below 32 splits back into that field and wire type |
| TsDecoder.DecodeBigNumber | ts/test/decode.ts:12-18 | the loop reassembles every byte's 7-bit group, little-endian |
| TsDecoder.RunValue | ts/test/decode.ts:20-32 | a run ended by a terminator holds exactly one varint |
| TsDecoder.DecodeBigNumbers | ts/test/decode.ts:20-32 | `decodeBigNumbers` gives the same numbers as the C++ `get_numbers`: one per terminated varint |
| TsDecoder.BigNumbersScanned | ts/test/decode.ts:20-32 | the scan of `decodeBigNumbers`, which cuts a number at each byte without the 0x80 bit, yields exactly the C++ `Numbers` of the buffer |
| TsDecoder.DecodeNumber | ts/test/decode.ts:34-36 | on a well-formed varint, `decodeNumber` gives the same number as the C++ `get_varint` |
| TsDecoder.GetValueAsWritten | ts/test/decode.ts:42-56 | as written: wire types 0 and 2 give a slice of the buffer and any other type is the error that names it; a varint is what the corrected reader gives; a length-delimited value skips one byte and is as long as that byte says, cut at the end of the buffer |
| TsDecoder.GetValue | ts/test/decode.ts:42-56 | wire types 0 and 2 give what the C++ `get_value` gives (with the length read as a varint); any other type is the error that names it |
| TsDecoder.GetValueVarint | ts/test/decode.ts:44-50 | a varint field's value is exactly the encoder's varint |
| TsDecoder.GetValueDelimited | ts/test/decode.ts:51-52 | (corrected) a length-delimited field's value is the payload, after a prefix as long as the length's varint |
| TsDecoder.OneByteLengthShortPayload | ts/test/decode.ts:51-52 | as written, a payload shorter than 128 bytes is read right |
| TsDecoder.OneByteLengthMisreads | ts/test/decode.ts:51-52 | as written, a payload of 128 bytes or more is cut short and the loop resumes inside it |
| TsDecoder.Decode | ts/test/decode.ts:91-106 | the `while (index < buffer.length)` loop is the fold of `decodeValue` over the buffer, stopping at the first error |
| TsDecoder.Push | ts/test/decode.ts:58-60 | appends to the list, or starts a one-element list when the field is still undefined |
| TsDecoder.DecodeProfile | ts/test/decode.ts:625-640 | `Profile.decode`: repeated fields pushed in wire order, scalars and the period type replaced |
| TsRoundTrip.ReadVarintField | ts/test/decode.ts:95-102 | a varint field the encoder wrote is read as its flag, its varint, and the bytes after it |
| TsRoundTrip.ReadBytesField | ts/test/decode.ts:95-102 | a length-delimited field is read as its flag, its length, its payload, and the bytes after it |
| TsRoundTrip.ReadField | ts/test/decode.ts:95-102 | either kind of field is read back exactly |
| TsRoundTrip.ReadSerialized | ts/test/decode.ts:91-106 | decoding serialized fields whose numbers fit five bits is the fold of `decodeValue` over their payloads |
| TsRoundTrip.ReadFieldAsWritten | ts/test/decode.ts:95-102 | as written, a field whose payload is shorter than 128 bytes is read back exactly |
| TsRoundTrip.ReadSerializedAsWritten | ts/test/decode.ts:91-106 | as written, decoding serialized fields with five-bit numbers and payloads shorter than 128 bytes is the fold of `decodeValue` over their payloads |
| TsRoundTrip.AsWrittenAgrees | ts/test/decode.ts:91-106 | on such fields the loop as written and the corrected loop give the same result |
| TsRoundTrip.ApplyAppend | ts/test/decode.ts:95-103 | the fold over a concatenation is the fold over the second part from where the first ended |
| TsRoundTrip.ApplyVarints | bindings/pprof.cc:82-90 | an omitted zero changes nothing; otherwise the one field is applied |
| TsRoundTrip.NumberOf | ts/test/decode.ts:34-36 | `decodeNumber` of the encoder's varint is the number encoded |
| TsRoundTrip.ValueTypeNumbers | ts/test/decode.ts:78-89 | the two numeric fields of a value type decode to those numbers |
| TsRoundTrip.ValueTypeRead | ts/test/decode.ts:91-106 | an encoded value type reads back as the ids of its type and unit strings |
| TsRoundTrip.LabelNumbers | ts/test/decode.ts:133-148 | the four numeric fields of a label decode to those numbers |
| TsRoundTrip.LabelRead | ts/test/decode.ts:150-165 | an encoded label reads back as the ids of its strings and its number |
| TsRoundTrip.LineNumbers | ts/test/decode.ts:337-348 | the two numeric fields of a line decode to those numbers |
| TsRoundTrip.LineRead | ts/test/decode.ts:350-365 | an encoded line reads back as its line number and the 1-based id of its function |
| TsRoundTrip.FunctionNumbers | ts/test/decode.ts:459-477 | the five numeric fields of a function decode to those numbers |
| TsRoundTrip.FunctionRead | ts/test/decode.ts:479-494 | an encoded function reads back as its id, the ids of its three strings and its start line |

## Left out

- Negative numbers. Every integer field is a `nat`. For a negative `int64_t` (a label's num, a start line, a line number, a sample value), the encoder's loop `while (number >= 0b10000000)` (bindings/pprof.cc:66-76) never runs, so it writes a single byte: the low eight bits of the number. The model has no negative numbers and does not capture that truncation.
- HeapProfiler.AddBucketSamples: the weight `size * count` is kept as a `nat` modulo 2^64. In the source, `MakeSample` takes it as an `int64_t` (bindings/helpers.cc:53-57) into the `int64_t` values of a `Sample` (bindings/pprof.h:65), so a wrapped product of 2^63 or more becomes negative. The model is exact only for weights below 2^63.
- HeapProfiler.HeapProfileEncoder.BuildProfile: its samples hold the weights of HeapProfiler.AddBucketSamples, so a weight of 2^63 or more is a large `nat` here and a negative `int64_t` in the source.
- HeapProfiler.HeapProfileEncoder.Execute: a weight of 2^63 or more is encoded as its full varint. The source encodes the negative `int64_t` as one truncated byte. The output is exact only while every weight is below 2^63.
- CppDecoder.GetNumber: the groups are summed into an unbounded number. The source shifts a 32-bit `int` (bindings/pprof.test.cc:133, and line 93 in `get_number_with_size`), which overflows for groups at bit 28 and above. That undefined behaviour is not modelled, so the decoded values are right only below 2^31.
- CppDecoder.GetNumberWithSize: on an unterminated varint, the source reads one byte past the end of the buffer. The model stops at the end.
- TsDecoder.DecodeBigNumber: `|=` on the 7-bit groups is written as `+`. The groups occupy disjoint bits, so the two agree.
- TsDecoder.DecodeNumber: the model returns the exact number. `Number(...)` in JavaScript rounds values above 2^53, and that rounding is not modelled.
- The TypeScript string table entries are kept as raw bytes. The UTF-8 decoding of `buffer.toString('utf-8')` is not modelled.
- The TypeScript class constructors are not modelled separately. They replace an undefined field with 0, false or undefined. Every record in the model starts from those defaults, so each constructor is the identity on the decoded record.
- TsDecoder.Decode, TsDecoder.DecodeProfile, TsRoundTrip.ReadSerialized, TsRoundTrip.ReadBytesField and TsRoundTrip.ReadField use the corrected reader `TsDecoder.GetValue`, which reads the whole length varint. The loop as written is TsDecoder.DecodeFieldsAsWritten. TsRoundTrip.AsWrittenAgrees proves that the two give the same result on serialized fields whose payloads are all shorter than 128 bytes. Longer payloads are mis-read as written (see Findings), and the corrected members do not describe that.
- TsRoundTrip covers only the records made of numbers: value types, labels, lines and functions. The full TypeScript profile round trip, through samples, locations, mappings and the profile, is not proved. Its length-delimited fields go through `GetValue`, so the C++ proofs carry over in shape only.
- The `operator==` of the decoder's `Location` (bindings/pprof.test.cc:490-496) compares `is_folded` with `!=`. The `operator==` of the decoder's `Profile` (lines 559-574) compares the addresses of `period_type`. Neither operator is used by the tests, so they are not modelled.
- `hex` (bindings/pprof.test.cc:29-36) only formats output. The test driver's printing (`Tap`) and the failure branches of the tests are left out.
- The V8 and N-API glue is left out: `AllocationNode`'s constructor from V8 nodes, `OnOK`, `StartSamplingHeapProfiler`, `StopSamplingHeapProfiler`, `GetAllocationProfile`, `TimeProfiler::Start`/`Stop`/`Init`, and the V8 `ToString`/`fallback` overloads. Clock readings, V8's external-memory figure and the CPU profile's start and end times are constructor parameters.
- Pointer identity of tree nodes is modelled by integer ids, fresh for each node pushed. The `nodeStacks` map is a `map<nat, seq<Location>>`.
- TimeProfiler.TimeProfileEncoder.Execute, and with it TimeProfiler.TimeProfileEncoder.constructor, TimeProfiler.TimeProfileEncoder.BuildProfile, TimeProfiler.TimeSampleCount and TimeProfiler.TimeSamplesFromNodes, require the profile's end time to be no earlier than its start time. Otherwise `(endTime - startTime) * 1000` would be negative, and V8 timestamps never run backwards.
- In two places the model follows what the code writes:
  - the mapping table is written before the location table, even though the location bytes are produced first;
  - the external heap sample's values are `[externalMemory, 1]`, as `MakeSample(..., externalMemory, 1)` writes them.

## Findings

| source | as written | input that shows it | evidently intended | confidence | as-written member | corrected member |
|---|---|---|---|---|---|---|
| ts/test/decode.ts:51-52 | `getValue` takes `buffer[0]` as the whole length of a length-delimited field and skips one byte (line 100) | any length-delimited field with a payload of 128 bytes or more, e.g. a string-table entry of 200 bytes: its length is the two-byte varint [0xC8, 0x01]; `buffer[0]` is 200, so `slice(1, 201)` returns 200 bytes, the 0x01 byte and the first 199 payload bytes, and decoding resumes at the last payload byte as if it were a field flag | read the length as a varint and skip the whole varint, as the C++ `get_value` does | not executed | TsDecoder.GetValueAsWritten (TsDecoder.OneByteLengthMisreads) | TsDecoder.GetValue (TsDecoder.GetValueDelimited) |
