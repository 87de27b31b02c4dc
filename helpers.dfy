/** The value constructors shared by both profilers (bindings/helpers.cc). */
module Helpers {
  import opened Bytes
  import opened Pprof
  import opened Interning

  /** `fallback(a, b)`: a, unless it is empty. */
  function Fallback(a: Str, b: Str): (r: Str)
    ensures r == b <==> (a == [] || a == b)
    ensures a != [] ==> r == a
    ensures r != [] <==> (a != [] || b != [])
  {
    if a == [] then b else a
  }

  /** One frame: a single Line whose Function has no start line, no mapping, no address. */
  function GetLocation(name: Str, systemName: Str, scriptName: Str, lineNumber: nat): (l: Location)
    ensures |l.lines| == 1
    ensures l.lines[0].func == Function(name, systemName, scriptName, 0)
    ensures l.lines[0].line == lineNumber
    ensures l.mapping == DefaultMapping && l.address == 0 && !l.isFolded
    ensures l != DefaultLocation
  {
    Location([Line(Function(name, systemName, scriptName), lineNumber)])
  }

  /** A sample of the given stack with exactly the two values, and no labels. */
  function MakeSample(stack: seq<Location>, first: nat, second: nat): (s: Sample)
    ensures s.locations == stack && s.values == [first, second] && s.labels == []
  {
    Sample(stack, [first, second])
  }

  /** A frame from GetLocation is never the default Location, so it always gets an id of at least 1. */
  lemma {:induction false} GetLocationInternsNonZero(t: Tables, name: Str, systemName: Str, scriptName: Str, lineNumber: nat)
    ensures var r := InternLocation(t, GetLocation(name, systemName, scriptName, lineNumber));
      1 <= r.id <= |r.tables.locations|
  {
  }
}
