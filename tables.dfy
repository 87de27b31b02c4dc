/**
 * The four interning tables of the Encoder (bindings/pprof.cc, `dedup`).
 *
 * Strings are numbered from 0 and the string table starts as [""], so the
 * empty string is id 0.  Mappings, locations and functions are numbered from
 * 1; a value equal to its default is never stored and is id 0 ("absent").
 * Lookup is by structural equality (`std::find` with `operator==`).
 */
module Interning {
  import opened Pprof

  datatype Tables = Tables(
    strings: seq<Str>,
    mappings: seq<Mapping>,
    locations: seq<Location>,
    functions: seq<Function>)

  /** The tables of a freshly constructed Encoder. */
  const InitialTables: Tables := Tables([[]], [], [], [])

  /** The tables after a dedup call, and the id it returned. */
  datatype Interned = Interned(tables: Tables, id: nat)

  predicate NoDuplicates<T(==)>(xs: seq<T>)
  {
    forall i, j :: 0 <= i < j < |xs| ==> xs[i] != xs[j]
  }

  /** Every table is duplicate-free, no default record is stored, and "" is string 0. */
  predicate Valid(t: Tables)
  {
    && |t.strings| >= 1 && t.strings[0] == []
    && NoDuplicates(t.strings) && NoDuplicates(t.mappings)
    && NoDuplicates(t.locations) && NoDuplicates(t.functions)
    && DefaultMapping !in t.mappings
    && DefaultLocation !in t.locations
    && DefaultFunction !in t.functions
  }

  /** Each table of u starts with the corresponding table of t (tables are append-only). */
  predicate Extends(t: Tables, u: Tables)
  {
    && t.strings <= u.strings && t.mappings <= u.mappings
    && t.locations <= u.locations && t.functions <= u.functions
  }

  /** Growth of the tables is transitive. */
  lemma {:induction false} ExtendsTrans(a: Tables, b: Tables, c: Tables)
    requires Extends(a, b) && Extends(b, c)
    ensures Extends(a, c)
  {
  }

  /** Only the string table may grow (value types, labels, functions, comments). */
  predicate GrowsStrings(t: Tables, u: Tables)
  {
    Extends(t, u) && u.mappings == t.mappings && u.locations == t.locations && u.functions == t.functions
  }

  /** Only the location table may grow (the location ids of a sample). */
  predicate GrowsLocations(t: Tables, u: Tables)
  {
    Extends(t, u) && u.strings == t.strings && u.mappings == t.mappings && u.functions == t.functions
  }

  /** Only the function table may grow (the lines of a location). */
  predicate GrowsFunctions(t: Tables, u: Tables)
  {
    Extends(t, u) && u.strings == t.strings && u.mappings == t.mappings && u.locations == t.locations
  }

  /** Mappings and functions may grow, strings and locations may not (the location table). */
  predicate GrowsMappingsAndFunctions(t: Tables, u: Tables)
  {
    Extends(t, u) && u.strings == t.strings && u.locations == t.locations
  }

  /** Strings and locations may grow, mappings and functions may not (a sample). */
  predicate GrowsStringsAndLocations(t: Tables, u: Tables)
  {
    Extends(t, u) && u.mappings == t.mappings && u.functions == t.functions
  }

  /** `id` is what dedup returns for `l` in tables t: 0 for the default, else its 1-based slot. */
  predicate LocationAt(t: Tables, id: nat, l: Location)
  {
    if l == DefaultLocation then id == 0 else 1 <= id <= |t.locations| && t.locations[id - 1] == l
  }

  /** Position of the first element equal to x, as `std::find` finds it. */
  function IndexOf<T(==)>(xs: seq<T>, x: T): (i: nat)
    requires x in xs
    ensures i < |xs| && xs[i] == x
    ensures forall j :: 0 <= j < i ==> xs[j] != x
  {
    if xs[0] == x then 0 else 1 + IndexOf(xs[1..], x)
  }

  /** `dedup(str)`: the index of an equal string, appending it first when absent. */
  function InternString(t: Tables, s: Str): (r: Interned)
    ensures r.id < |r.tables.strings| && r.tables.strings[r.id] == s
    ensures forall j :: 0 <= j < r.id ==> r.tables.strings[j] != s
    ensures s in t.strings ==> r.tables == t
    ensures s !in t.strings ==> r.tables == t.(strings := t.strings + [s]) && r.id == |t.strings|
    ensures Extends(t, r.tables) && (Valid(t) ==> Valid(r.tables))
  {
    if s in t.strings then Interned(t, IndexOf(t.strings, s))
    else
      NoDuplicatesAppend(t.strings, s);
      Interned(t.(strings := t.strings + [s]), |t.strings|)
  }

  /** `dedup(mapping)`: 0 for the default; otherwise 1 + the index of an equal entry. */
  function InternMapping(t: Tables, m: Mapping): (r: Interned)
    ensures m == DefaultMapping ==> r == Interned(t, 0)
    ensures m != DefaultMapping ==>
      && 1 <= r.id <= |r.tables.mappings| && r.tables.mappings[r.id - 1] == m
      && (forall j :: 0 <= j < r.id - 1 ==> r.tables.mappings[j] != m)
      && (m in t.mappings ==> r.tables == t)
      && (m !in t.mappings ==> r.tables == t.(mappings := t.mappings + [m]))
    ensures Extends(t, r.tables) && (Valid(t) ==> Valid(r.tables))
  {
    if m == DefaultMapping then Interned(t, 0)
    else if m in t.mappings then Interned(t, IndexOf(t.mappings, m) + 1)
    else
      NoDuplicatesAppend(t.mappings, m);
      Interned(t.(mappings := t.mappings + [m]), |t.mappings| + 1)
  }

  /** `dedup(location)`: 0 for the default; otherwise 1 + the index of an equal entry. */
  function InternLocation(t: Tables, l: Location): (r: Interned)
    ensures l == DefaultLocation ==> r == Interned(t, 0)
    ensures l != DefaultLocation ==>
      && 1 <= r.id <= |r.tables.locations| && r.tables.locations[r.id - 1] == l
      && (forall j :: 0 <= j < r.id - 1 ==> r.tables.locations[j] != l)
      && (l in t.locations ==> r.tables == t)
      && (l !in t.locations ==> r.tables == t.(locations := t.locations + [l]))
    ensures Extends(t, r.tables) && (Valid(t) ==> Valid(r.tables))
  {
    if l == DefaultLocation then Interned(t, 0)
    else if l in t.locations then Interned(t, IndexOf(t.locations, l) + 1)
    else
      NoDuplicatesAppend(t.locations, l);
      Interned(t.(locations := t.locations + [l]), |t.locations| + 1)
  }

  /** `dedup(function)`: 0 for the default; otherwise 1 + the index of an equal entry. */
  function InternFunction(t: Tables, f: Function): (r: Interned)
    ensures f == DefaultFunction ==> r == Interned(t, 0)
    ensures f != DefaultFunction ==>
      && 1 <= r.id <= |r.tables.functions| && r.tables.functions[r.id - 1] == f
      && (forall j :: 0 <= j < r.id - 1 ==> r.tables.functions[j] != f)
      && (f in t.functions ==> r.tables == t)
      && (f !in t.functions ==> r.tables == t.(functions := t.functions + [f]))
    ensures Extends(t, r.tables) && (Valid(t) ==> Valid(r.tables))
  {
    if f == DefaultFunction then Interned(t, 0)
    else if f in t.functions then Interned(t, IndexOf(t.functions, f) + 1)
    else
      NoDuplicatesAppend(t.functions, f);
      Interned(t.(functions := t.functions + [f]), |t.functions| + 1)
  }

  /** The first occurrence is unique: any index with no earlier equal element is IndexOf. */
  lemma {:induction false} IndexOfIsFirst<T>(xs: seq<T>, x: T, i: nat)
    requires i < |xs| && xs[i] == x
    requires forall j :: 0 <= j < i ==> xs[j] != x
    ensures IndexOf(xs, x) == i
  {
  }

  lemma {:induction false} NoDuplicatesAppend<T>(xs: seq<T>, x: T)
    ensures NoDuplicates(xs) && x !in xs ==> NoDuplicates(xs + [x])
  {
  }

  /** A fresh encoder's string table is [""], so "" is id 0 and nothing is added. */
  lemma {:induction false} EmptyStringIsZero()
    ensures Valid(InitialTables)
    ensures InternString(InitialTables, []) == Interned(InitialTables, 0)
  {
  }

  /** Interning an equal value again returns the same id and adds nothing. */
  lemma {:induction false} InternStringIdempotent(t: Tables, s: Str)
    ensures var r := InternString(t, s); InternString(r.tables, s) == r
  {
    var r := InternString(t, s);
    IndexOfIsFirst(r.tables.strings, s, r.id);
  }

  lemma {:induction false} InternMappingIdempotent(t: Tables, m: Mapping)
    ensures var r := InternMapping(t, m); InternMapping(r.tables, m) == r
  {
    var r := InternMapping(t, m);
    if m != DefaultMapping {
      IndexOfIsFirst(r.tables.mappings, m, r.id - 1);
    }
  }

  lemma {:induction false} InternLocationIdempotent(t: Tables, l: Location)
    ensures var r := InternLocation(t, l); InternLocation(r.tables, l) == r
  {
    var r := InternLocation(t, l);
    if l != DefaultLocation {
      IndexOfIsFirst(r.tables.locations, l, r.id - 1);
    }
  }

  lemma {:induction false} InternFunctionIdempotent(t: Tables, f: Function)
    ensures var r := InternFunction(t, f); InternFunction(r.tables, f) == r
  {
    var r := InternFunction(t, f);
    if f != DefaultFunction {
      IndexOfIsFirst(r.tables.functions, f, r.id - 1);
    }
  }

  /**
   * Ids are stable: once a value has been interned, interning it into any
   * later state of the tables returns the same id and adds nothing.
   */
  lemma {:induction false} InternStringStable(t: Tables, s: Str, later: Tables)
    requires Extends(InternString(t, s).tables, later)
    ensures InternString(later, s) == Interned(later, InternString(t, s).id)
  {
    var r := InternString(t, s);
    IndexOfIsFirst(later.strings, s, r.id);
  }

  lemma {:induction false} InternMappingStable(t: Tables, m: Mapping, later: Tables)
    requires Extends(InternMapping(t, m).tables, later)
    ensures InternMapping(later, m) == Interned(later, InternMapping(t, m).id)
  {
    var r := InternMapping(t, m);
    if m != DefaultMapping {
      IndexOfIsFirst(later.mappings, m, r.id - 1);
    }
  }

  lemma {:induction false} InternLocationStable(t: Tables, l: Location, later: Tables)
    requires Extends(InternLocation(t, l).tables, later)
    ensures InternLocation(later, l) == Interned(later, InternLocation(t, l).id)
  {
    var r := InternLocation(t, l);
    if l != DefaultLocation {
      IndexOfIsFirst(later.locations, l, r.id - 1);
    }
  }

  lemma {:induction false} InternFunctionStable(t: Tables, f: Function, later: Tables)
    requires Extends(InternFunction(t, f).tables, later)
    ensures InternFunction(later, f) == Interned(later, InternFunction(t, f).id)
  {
    var r := InternFunction(t, f);
    if f != DefaultFunction {
      IndexOfIsFirst(later.functions, f, r.id - 1);
    }
  }
}
