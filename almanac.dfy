/** 2023 day 5, "If You Give A Seed A Fertilizer": an almanac lists seeds and seven range
    tables (seed-to-soil, ..., humidity-to-location). Each table maps a value through the
    first range, by source start, that covers it, and leaves it unchanged when none does; a
    seed's location is the composition of the seven tables, and the answer is the lowest
    location over all seeds. */
module Almanac {
  import opened Wrappers

  /** One row of a table: `destination source length`. */
  datatype MapRange = MapRange(destinationStart: int, sourceStart: int, length: int)

  /** A line of the almanac, already split into tokens: a blank line, a section header with
      the numbers after its colon, or a line of numbers. */
  datatype Line = Blank | Header(section: string, values: seq<int>) | Numbers(values: seq<int>)

  datatype Error =
    | UnknownSection(section: string)
    | MalformedRow(line: nat)
    | MissingSeeds
    | MissingMap(section: string)

  /** The parsed sections: the seeds (absent until a `seeds:` header is read) and the range
      tables by section name. */
  datatype Tables = Tables(seeds: Option<seq<int>>, mappings: map<string, seq<MapRange>>)

  /** `Long.MAX_VALUE`, the starting point of the minimum. */
  const LongMax: int := 0x7FFF_FFFF_FFFF_FFFF

  /** The seven table names, in the order the chain applies them. */
  const MapNames: seq<string> := [
    "seed-to-soil map", "soil-to-fertilizer map", "fertilizer-to-water map",
    "water-to-light map", "light-to-temperature map", "temperature-to-humidity map",
    "humidity-to-location map"]

  datatype SectionKind = SeedsSection | MapSection | UnknownKind

  /** The `switch` on the section name. */
  function Classify(section: string): (k: SectionKind)
    ensures k == SeedsSection <==> section == "seeds"
    ensures k == MapSection <==> section in MapNames
  {
    if section == "seeds" then SeedsSection
    else if section in MapNames then MapSection
    else UnknownKind
  }

  // ---------------------------------------------------------------------------------------
  // Reading the almanac

  /** `handleMapping`: the rows from line j up to the next blank line (which is consumed) or
      the end; returns the table and the index of the line after it. A row with fewer than
      three numbers, or a header inside the table, does not parse. */
  function ReadRows(lines: seq<Line>, j: nat, acc: seq<MapRange>): (r: Result<(seq<MapRange>, nat), Error>)
    ensures r.Ok? ==> j <= r.value.1 && (j < |lines| ==> j < r.value.1 <= |lines|)
    decreases |lines| - j
  {
    if j >= |lines| then Ok((acc, j))
    else
      match lines[j]
      case Blank => Ok((acc, j + 1))
      case Header(_, _) => Err(MalformedRow(j))
      case Numbers(vs) =>
        if |vs| < 3 then Err(MalformedRow(j))
        else ReadRows(lines, j + 1, acc + [MapRange(vs[0], vs[1], vs[2])])
  }

  /** The reading loop from line i on: blank lines and stray number lines are skipped, a
      `seeds:` header sets the seeds, a table header reads its table (replacing an earlier
      table of the same name), and any other header is an error. */
  function ReadFrom(lines: seq<Line>, i: nat, t: Tables): Result<Tables, Error>
    decreases |lines| - i
  {
    if i >= |lines| then Ok(t)
    else
      match lines[i]
      case Blank => ReadFrom(lines, i + 1, t)
      case Numbers(_) => ReadFrom(lines, i + 1, t)
      case Header(section, vs) =>
        match Classify(section)
        case UnknownKind => Err(UnknownSection(section))
        case SeedsSection =>
          if vs == [] then Err(MalformedRow(i)) else ReadFrom(lines, i + 1, t.(seeds := Some(vs)))
        case MapSection =>
          match ReadRows(lines, i + 1, [])
          case Err(e) => Err(e)
          case Ok((ranges, next)) =>
            ReadFrom(lines, next, t.(mappings := t.mappings[section := ranges]))
  }

  function Read(lines: seq<Line>): Result<Tables, Error> {
    ReadFrom(lines, 0, Tables(None, map[]))
  }

  /** A header that names no section is always reported: if every line before it parses
      without error, reading fails with that section's name. */
  lemma {:induction false} UnknownHeaderFails(lines: seq<Line>, i: nat, t: Tables, k: nat)
    requires i <= k < |lines| && lines[k].Header? && Classify(lines[k].section) == UnknownKind
    requires forall j :: i <= j < k ==> lines[j].Blank? || lines[j].Numbers?
    ensures ReadFrom(lines, i, t) == Err(UnknownSection(lines[k].section))
    decreases k - i
  {
    if i < k {
      UnknownHeaderFails(lines, i + 1, t, k);
    }
  }

  /** A table that reads without error holds no header: every line it consumes is a row or
      the closing blank line. */
  lemma {:induction false} ReadRowsNoHeader(lines: seq<Line>, j: nat, acc: seq<MapRange>)
    requires ReadRows(lines, j, acc).Ok?
    ensures forall k :: j <= k < ReadRows(lines, j, acc).value.1 && k < |lines| ==> !lines[k].Header?
    decreases |lines| - j
  {
    if j < |lines| && lines[j].Numbers? {
      var vs := lines[j].values;
      ReadRowsNoHeader(lines, j + 1, acc + [MapRange(vs[0], vs[1], vs[2])]);
    }
  }

  /** Reading succeeds only if every header from line i on names a known section. */
  lemma {:induction false} ReadOkKnownHeaders(lines: seq<Line>, i: nat, t: Tables)
    ensures ReadFrom(lines, i, t).Ok? ==>
      forall k :: i <= k < |lines| && lines[k].Header? ==> Classify(lines[k].section) != UnknownKind
    decreases |lines| - i
  {
    if i < |lines| && ReadFrom(lines, i, t).Ok? {
      match lines[i]
      case Blank => ReadOkKnownHeaders(lines, i + 1, t);
      case Numbers(_) => ReadOkKnownHeaders(lines, i + 1, t);
      case Header(section, vs) =>
        if Classify(section) == SeedsSection {
          ReadOkKnownHeaders(lines, i + 1, t.(seeds := Some(vs)));
        } else {
          var rows := ReadRows(lines, i + 1, []);
          ReadRowsNoHeader(lines, i + 1, []);
          ReadOkKnownHeaders(lines, rows.value.1, t.(mappings := t.mappings[section := rows.value.0]));
        }
    }
  }

  /** `handleMapping` as a loop over the lines. */
  method HandleMapping(lines: seq<Line>, j: nat) returns (r: Result<(seq<MapRange>, nat), Error>)
    ensures r == ReadRows(lines, j, [])
  {
    var ranges: seq<MapRange> := [];
    var k := j;
    while k < |lines| && !lines[k].Blank?
      invariant j <= k <= |lines| || k == j
      invariant ReadRows(lines, j, []) == ReadRows(lines, k, ranges)
      decreases |lines| - k
    {
      if lines[k].Header? || |lines[k].values| < 3 {
        return Err(MalformedRow(k));
      }
      var vs := lines[k].values;
      ranges := ranges + [MapRange(vs[0], vs[1], vs[2])];
      k := k + 1;
    }
    r := Ok((ranges, k + 1));
    if k >= |lines| {
      r := Ok((ranges, k));
    }
  }

  /** The section loop of the test. */
  method ReadAlmanac(lines: seq<Line>) returns (r: Result<Tables, Error>)
    ensures r == Read(lines)
  {
    var seeds: Option<seq<int>> := None;
    var mappings: map<string, seq<MapRange>> := map[];
    var i := 0;
    while i < |lines|
      invariant Read(lines) == ReadFrom(lines, i, Tables(seeds, mappings))
      decreases |lines| - i
    {
      match lines[i]
      case Blank =>
        i := i + 1;
      case Numbers(_) =>
        i := i + 1;
      case Header(section, vs) =>
        var kind := Classify(section);
        if kind == UnknownKind {
          return Err(UnknownSection(section));
        } else if kind == SeedsSection {
          if vs == [] {
            return Err(MalformedRow(i));
          }
          seeds := Some(vs);
          i := i + 1;
        } else {
          var rows := HandleMapping(lines, i + 1);
          if rows.Err? {
            return Err(rows.error);
          }
          mappings := mappings[section := rows.value.0];
          i := rows.value.1;
        }
    }
    r := Ok(Tables(seeds, mappings));
  }

  // ---------------------------------------------------------------------------------------
  // Sorting a table by source start

  predicate SortedBySource(s: seq<MapRange>) {
    forall i, j :: 0 <= i < j < |s| ==> s[i].sourceStart <= s[j].sourceStart
  }

  /** Inserts r after every range whose source start is not greater than its own. */
  function Insert(r: MapRange, s: seq<MapRange>): seq<MapRange> {
    if s == [] then [r]
    else if r.sourceStart < s[0].sourceStart then [r] + s
    else [s[0]] + Insert(r, s[1..])
  }

  /** `sorted(Comparator.comparing(r -> r[1]))`, a stable sort by source start: the result
      is ordered by source start and holds the same rows. */
  function SortBySource(s: seq<MapRange>): (r: seq<MapRange>)
    ensures SortedBySource(r)
    ensures multiset(r) == multiset(s)
  {
    if s == [] then []
    else
      var front := SortBySource(s[..|s| - 1]);
      InsertSpec(s[|s| - 1], front);
      assert s == s[..|s| - 1] + [s[|s| - 1]];
      Insert(s[|s| - 1], front)
  }

  predicate StartsAtLeast(s: seq<MapRange>, key: int) {
    forall x :: x in s ==> key <= x.sourceStart
  }

  lemma SortedTail(s: seq<MapRange>)
    requires SortedBySource(s) && s != []
    ensures SortedBySource(s[1..]) && StartsAtLeast(s[1..], s[0].sourceStart)
  {
    forall i, j | 0 <= i < j < |s[1..]|
      ensures s[1..][i].sourceStart <= s[1..][j].sourceStart
    {
      assert s[1..][i] == s[i + 1] && s[1..][j] == s[j + 1];
    }
    forall x | x in s[1..]
      ensures s[0].sourceStart <= x.sourceStart
    {
      var i :| 0 <= i < |s[1..]| && s[1..][i] == x;
      assert s[i + 1] == x;
    }
  }

  lemma StartsAtLeastByMultiset(t: seq<MapRange>, s: seq<MapRange>, r: MapRange, key: int)
    requires multiset(t) == multiset(s) + multiset{r}
    requires StartsAtLeast(s, key) && key <= r.sourceStart
    ensures StartsAtLeast(t, key)
  {
    forall x | x in t
      ensures key <= x.sourceStart
    {
      assert x in multiset(t);
      if x != r {
        assert x in multiset(s);
      }
    }
  }

  lemma {:induction false} InsertSpec(r: MapRange, s: seq<MapRange>)
    requires SortedBySource(s)
    ensures SortedBySource(Insert(r, s))
    ensures multiset(Insert(r, s)) == multiset(s) + multiset{r}
  {
    if s != [] && r.sourceStart >= s[0].sourceStart {
      var tail := s[1..];
      SortedTail(s);
      InsertSpec(r, tail);
      var t := Insert(r, tail);
      StartsAtLeastByMultiset(t, tail, r, s[0].sourceStart);
      SortedCons(s[0], t);
      assert s == [s[0]] + tail;
    } else if s != [] {
      SortedCons(r, s);
    }
  }

  lemma SortedCons(x: MapRange, t: seq<MapRange>)
    requires SortedBySource(t) && StartsAtLeast(t, x.sourceStart)
    ensures SortedBySource([x] + t)
  {
    var s := [x] + t;
    forall i, j | 0 <= i < j < |s|
      ensures s[i].sourceStart <= s[j].sourceStart
    {
      assert s[j] == t[j - 1];
      if i > 0 {
        assert s[i] == t[i - 1];
      } else {
        assert s[j] in t;
      }
    }
  }

  // ---------------------------------------------------------------------------------------
  // Mapping a value through one table

  predicate Covers(r: MapRange, v: int) {
    r.sourceStart <= v < r.sourceStart + r.length
  }

  function Shift(r: MapRange, v: int): int {
    v + (r.destinationStart - r.sourceStart)
  }

  /** The rule as stated: the first range of the table that covers v shifts it; with none,
      v maps to itself. */
  function Through(table: seq<MapRange>, v: int): int {
    if table == [] then v
    else if Covers(table[0], v) then Shift(table[0], v)
    else Through(table[1..], v)
  }

  /** When some range covers v, the first one that does shifts it. */
  lemma {:induction false} ThroughFirst(table: seq<MapRange>, v: int, k: nat)
    requires k < |table| && Covers(table[k], v)
    requires forall j :: 0 <= j < k ==> !Covers(table[j], v)
    ensures Through(table, v) == Shift(table[k], v)
  {
    if k > 0 {
      assert !Covers(table[0], v);
      ThroughFirst(table[1..], v, k - 1);
    }
  }

  /** Without a covering range the value passes unchanged. */
  lemma {:induction false} ThroughUncovered(table: seq<MapRange>, v: int)
    requires forall r :: r in table ==> !Covers(r, v)
    ensures Through(table, v) == v
  {
    if table != [] {
      assert table[0] in table;
      assert forall r :: r in table[1..] ==> r in table;
      ThroughUncovered(table[1..], v);
    }
  }

  /** When only one range (whatever its position) covers v, that range decides. */
  lemma {:induction false} ThroughUnique(table: seq<MapRange>, v: int, r: MapRange)
    requires r in table && Covers(r, v)
    requires forall q :: q in table && Covers(q, v) ==> q == r
    ensures Through(table, v) == Shift(r, v)
  {
    assert table[0] in table;
    if !Covers(table[0], v) {
      assert r in table[1..];
      assert forall q :: q in table[1..] ==> q in table;
      ThroughUnique(table[1..], v, r);
    }
  }

  /** Skipping a prefix of ranges that do not cover v changes nothing. */
  lemma {:induction false} ThroughSkip(table: seq<MapRange>, v: int, i: nat)
    requires i <= |table|
    requires forall k :: 0 <= k < i ==> !Covers(table[k], v)
    ensures Through(table, v) == Through(table[i..], v)
  {
    if i > 0 {
      assert table[1..][i - 1..] == table[i..];
      ThroughSkip(table[1..], v, i - 1);
    }
  }

  /** `mapToDestination`: the loop over the sorted table that stops at the first range
      starting past v (v is then not covered) or at the first range covering v. */
  method MapToDestination(sourceValue: int, mappings: seq<MapRange>) returns (destinationValue: int)
    ensures destinationValue == Through(SortBySource(mappings), sourceValue)
  {
    var sortedMappings := SortBySource(mappings);
    var found := false;
    destinationValue := 0;
    var i := 0;
    while i < |sortedMappings|
      invariant i <= |sortedMappings|
      invariant forall k :: 0 <= k < i ==> !Covers(sortedMappings[k], sourceValue)
    {
      var range := sortedMappings[i];
      var sourceRangeStart := range.sourceStart;
      var sourceRangeEnd := range.sourceStart + range.length;
      var destinationOffset := range.destinationStart - range.sourceStart;
      if sourceValue < sourceRangeStart {
        ThroughSkip(sortedMappings, sourceValue, i);
        forall r | r in sortedMappings[i..]
          ensures !Covers(r, sourceValue)
        {
          var k :| 0 <= k < |sortedMappings[i..]| && sortedMappings[i..][k] == r;
          assert sortedMappings[i + k] == r;
        }
        ThroughUncovered(sortedMappings[i..], sourceValue);
        return sourceValue;
      } else if sourceValue < sourceRangeEnd {
        ThroughSkip(sortedMappings, sourceValue, i);
        return sourceValue + destinationOffset;
      }
      i := i + 1;
    }
    ThroughSkip(sortedMappings, sourceValue, i);
    destinationValue := sourceValue;
  }

  /** For a table whose source ranges do not overlap at v, the order of the rows does not
      matter: the one range covering v shifts it, and with none v is unchanged. */
  lemma OrderIrrelevant(table: seq<MapRange>, v: int)
    requires forall q, r :: q in table && r in table && Covers(q, v) && Covers(r, v) ==> q == r
    ensures (exists r :: r in table && Covers(r, v)) ==>
      forall r :: r in table && Covers(r, v) ==> Through(SortBySource(table), v) == Shift(r, v)
    ensures (forall r :: r in table ==> !Covers(r, v)) ==> Through(SortBySource(table), v) == v
  {
    var sorted := SortBySource(table);
    assert forall r :: r in sorted <==> r in table by {
      forall r
        ensures r in sorted <==> r in table
      {
        assert r in sorted <==> r in multiset(sorted);
        assert r in table <==> r in multiset(table);
      }
    }
    forall r | r in table && Covers(r, v)
      ensures Through(sorted, v) == Shift(r, v)
    {
      ThroughUnique(sorted, v, r);
    }
    if forall r :: r in table ==> !Covers(r, v) {
      ThroughUncovered(sorted, v);
    }
  }

  // ---------------------------------------------------------------------------------------
  // Seeds to locations

  /** The value after the tables named in names, applied in order; a missing table is the
      `NullPointerException` of `mapToDestination`. */
  function Chain(mappings: map<string, seq<MapRange>>, names: seq<string>, v: int): Result<int, Error> {
    if names == [] then Ok(v)
    else
      match Chain(mappings, names[..|names| - 1], v)
      case Err(e) => Err(e)
      case Ok(w) =>
        var name := names[|names| - 1];
        if name !in mappings then Err(MissingMap(name))
        else Ok(Through(SortBySource(mappings[name]), w))
  }

  function Location(mappings: map<string, seq<MapRange>>, seed: int): Result<int, Error> {
    Chain(mappings, MapNames, seed)
  }

  lemma InSnoc<T>(xs: seq<T>)
    requires xs != []
    ensures forall x :: x in xs <==> x in xs[..|xs| - 1] || x == xs[|xs| - 1]
  {
    assert xs == xs[..|xs| - 1] + [xs[|xs| - 1]];
  }

  /** The chain fails exactly when one of its tables is missing, whatever the value, and the
      error names a missing table. */
  lemma {:induction false} ChainError(mappings: map<string, seq<MapRange>>, names: seq<string>, v: int)
    ensures Chain(mappings, names, v).Err? <==> exists name :: name in names && name !in mappings
    ensures Chain(mappings, names, v).Err? ==>
      Chain(mappings, names, v).error.MissingMap? &&
      Chain(mappings, names, v).error.section in names &&
      Chain(mappings, names, v).error.section !in mappings
  {
    if names != [] {
      var init := names[..|names| - 1];
      ChainError(mappings, init, v);
      InSnoc(names);
    }
  }

  function Min(a: int, b: int): int {
    if a < b then a else b
  }

  /** The fold `minLocation = Math.min(minLocation, location)` from `Long.MAX_VALUE`. */
  function Lowest(mappings: map<string, seq<MapRange>>, seeds: seq<int>): Result<int, Error> {
    if seeds == [] then Ok(LongMax)
    else
      match Lowest(mappings, seeds[..|seeds| - 1])
      case Err(e) => Err(e)
      case Ok(m) =>
        match Location(mappings, seeds[|seeds| - 1])
        case Err(e) => Err(e)
        case Ok(loc) => Ok(Min(m, loc))
  }

  /** The minimum is a lower bound of every seed's location and `Long.MAX_VALUE`, and it is
      one of them. */
  lemma {:induction false} LowestSpec(mappings: map<string, seq<MapRange>>, seeds: seq<int>)
    requires Lowest(mappings, seeds).Ok?
    ensures var m := Lowest(mappings, seeds).value;
      && m <= LongMax
      && (forall k :: 0 <= k < |seeds| ==> Location(mappings, seeds[k]).Ok? && m <= Location(mappings, seeds[k]).value)
      && (m == LongMax || exists k :: 0 <= k < |seeds| && Location(mappings, seeds[k]) == Ok(m))
  {
    if seeds != [] {
      var init := seeds[..|seeds| - 1];
      var last := seeds[|seeds| - 1];
      LowestSpec(mappings, init);
      var m, loc := Lowest(mappings, init).value, Location(mappings, last).value;
      assert Lowest(mappings, seeds).value == Min(m, loc);
      forall k | 0 <= k < |init|
        ensures seeds[k] == init[k]
      {
      }
    }
  }

  /** Lowest fails exactly when there is a seed and some table is missing. */
  lemma {:induction false} LowestError(mappings: map<string, seq<MapRange>>, seeds: seq<int>)
    ensures Lowest(mappings, seeds).Err? <==> seeds != [] && exists name :: name in MapNames && name !in mappings
  {
    if seeds != [] {
      LowestError(mappings, seeds[..|seeds| - 1]);
      ChainError(mappings, MapNames, seeds[|seeds| - 1]);
    }
  }

  /** The whole test: read the almanac, fail without seeds, then take the lowest location. */
  function Solve(lines: seq<Line>): Result<int, Error> {
    match Read(lines)
    case Err(e) => Err(e)
    case Ok(t) =>
      if t.seeds.None? then Err(MissingSeeds) else Lowest(t.mappings, t.seeds.value)
  }

  /** The seven calls of the test, one table after another. */
  method Locate(mappings: map<string, seq<MapRange>>, seed: int) returns (r: Result<int, Error>)
    ensures r == Location(mappings, seed)
  {
    var value := seed;
    for n := 0 to |MapNames|
      invariant Chain(mappings, MapNames[..n], seed) == Ok(value)
    {
      assert MapNames[..n + 1][..n] == MapNames[..n];
      var name := MapNames[n];
      if name !in mappings {
        ChainErrorPersists(mappings, MapNames, n + 1, seed);
        return Err(MissingMap(name));
      }
      value := MapToDestination(value, mappings[name]);
    }
    assert MapNames[..|MapNames|] == MapNames;
    r := Ok(value);
  }

  lemma {:induction false} ChainErrorPersists(mappings: map<string, seq<MapRange>>, names: seq<string>, n: nat, v: int)
    requires n <= |names| && Chain(mappings, names[..n], v).Err?
    ensures Chain(mappings, names, v) == Chain(mappings, names[..n], v)
    decreases |names| - n
  {
    if n < |names| {
      assert names[..n + 1][..n] == names[..n];
      ChainErrorPersists(mappings, names, n + 1, v);
    } else {
      assert names[..n] == names;
    }
  }

  lemma {:induction false} LowestErrorPersists(mappings: map<string, seq<MapRange>>, seeds: seq<int>, n: nat)
    requires n <= |seeds| && Lowest(mappings, seeds[..n]).Err?
    ensures Lowest(mappings, seeds) == Lowest(mappings, seeds[..n])
    decreases |seeds| - n
  {
    if n < |seeds| {
      assert seeds[..n + 1][..n] == seeds[..n];
      LowestErrorPersists(mappings, seeds, n + 1);
    } else {
      assert seeds[..n] == seeds;
    }
  }

  /** `test_day5_part1`. */
  method Day5(lines: seq<Line>) returns (r: Result<int, Error>)
    ensures r == Solve(lines)
  {
    var almanac := ReadAlmanac(lines);
    if almanac.Err? {
      return Err(almanac.error);
    }
    var seeds := almanac.value.seeds;
    var mappings := almanac.value.mappings;
    if seeds.None? {
      return Err(MissingSeeds);
    }
    var minLocation := LongMax;
    for s := 0 to |seeds.value|
      invariant Lowest(mappings, seeds.value[..s]) == Ok(minLocation)
    {
      assert seeds.value[..s + 1][..s] == seeds.value[..s];
      var location := Locate(mappings, seeds.value[s]);
      if location.Err? {
        LowestErrorPersists(mappings, seeds.value, s + 1);
        return Err(location.error);
      }
      minLocation := Min(minLocation, location.value);
    }
    assert seeds.value[..|seeds.value|] == seeds.value;
    r := Ok(minLocation);
  }
}
