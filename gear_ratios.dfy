/** 2023 day 3, "Gear Ratios": an engine schematic is a list of text lines. Every symbol adds
    the numbers next to it (on the line above, its own line and the line below, diagonals
    included) to the part number sum; a `*` with exactly two such numbers also adds their
    product to the gear ratio sum. */
module GearRatios {
  import opened Decimal

  /** A `\d+` match: the maximal run of digits line[start..end] and its value. */
  datatype Run = Run(start: nat, end: nat, value: nat)

  /** The character class `[@#$%&*+=\-/]`. */
  predicate IsSymbol(c: char) {
    c == '@' || c == '#' || c == '$' || c == '%' || c == '&' ||
    c == '*' || c == '+' || c == '=' || c == '-' || c == '/'
  }

  /** The `\d+` matches at or after position i, from left to right. */
  function RunsFrom(line: string, i: nat): (runs: seq<Run>)
    requires i <= |line|
    ensures forall k :: 0 <= k < |runs| ==> i <= runs[k].start < runs[k].end <= |line|
    decreases |line| - i
  {
    if i == |line| then []
    else if !IsDigit(line[i]) then RunsFrom(line, i + 1)
    else
      var e := RunEnd(line, i);
      [Run(i, e, ParseNat(line[i..e]))] + RunsFrom(line, e)
  }

  function Runs(line: string): seq<Run> {
    RunsFrom(line, 0)
  }

  /** r is a maximal run of digits of the line, and its value is the numeral it spans. */
  predicate MaximalRun(line: string, r: Run) {
    && r.start < r.end <= |line|
    && (forall q :: r.start <= q < r.end ==> IsDigit(line[q]))
    && (r.start == 0 || !IsDigit(line[r.start - 1]))
    && (r.end == |line| || !IsDigit(line[r.end]))
    && r.value == ParseNat(line[r.start..r.end])
  }

  /** A run that starts where the previous character is no digit is maximal. */
  lemma FirstRunMaximal(line: string, i: nat)
    requires i < |line| && IsDigit(line[i])
    requires i > 0 ==> !IsDigit(line[i - 1])
    ensures var e := RunEnd(line, i); MaximalRun(line, Run(i, e, ParseNat(line[i..e])))
  {
  }

  /** Every match from position i is a maximal run of digits, when i does not split one. */
  lemma {:induction false} RunsFromMaximal(line: string, i: nat)
    requires i <= |line|
    requires 0 < i < |line| && IsDigit(line[i]) ==> !IsDigit(line[i - 1])
    ensures forall r :: r in RunsFrom(line, i) ==> MaximalRun(line, r)
    decreases |line| - i
  {
    if i < |line| {
      if !IsDigit(line[i]) {
        RunsFromMaximal(line, i + 1);
      } else {
        var e := RunEnd(line, i);
        FirstRunMaximal(line, i);
        RunsFromMaximal(line, e);
        assert RunsFrom(line, i) == [Run(i, e, ParseNat(line[i..e]))] + RunsFrom(line, e);
      }
    }
  }

  /** Each match from position i ends before the next one starts. */
  lemma {:induction false} RunsFromOrdered(line: string, i: nat)
    requires i <= |line|
    ensures forall k :: 0 < k < |RunsFrom(line, i)| ==> RunsFrom(line, i)[k - 1].end < RunsFrom(line, i)[k].start
    decreases |line| - i
  {
    if i < |line| {
      if !IsDigit(line[i]) {
        RunsFromOrdered(line, i + 1);
      } else {
        var e := RunEnd(line, i);
        var runs, rest := RunsFrom(line, i), RunsFrom(line, e);
        assert runs == [Run(i, e, ParseNat(line[i..e]))] + rest;
        RunsFromOrdered(line, e);
        forall k | 0 < k < |runs|
          ensures runs[k - 1].end < runs[k].start
        {
          if k == 1 {
            assert rest[0].start != e by {
              RunsFromMaximal(line, e);
              assert rest[0] in rest;
            }
          } else {
            assert runs[k - 1] == rest[k - 2] && runs[k] == rest[k - 1];
          }
        }
      }
    }
  }

  /** Every maximal run of digits at or after position i is a match, when i does not split one. */
  lemma {:induction false} RunsFromComplete(line: string, i: nat, r: Run)
    requires i <= r.start && MaximalRun(line, r)
    requires 0 < i < |line| && IsDigit(line[i]) ==> !IsDigit(line[i - 1])
    ensures r in RunsFrom(line, i)
    decreases |line| - i
  {
    if !IsDigit(line[i]) {
      assert r.start != i;
      RunsFromComplete(line, i + 1, r);
    } else {
      var e := RunEnd(line, i);
      var first := Run(i, e, ParseNat(line[i..e]));
      assert RunsFrom(line, i) == [first] + RunsFrom(line, e);
      if r.start == i {
        assert r.end == e;
        assert r == first;
      } else {
        assert !IsDigit(line[r.start - 1]);
        assert e <= r.start;
        RunsFromComplete(line, e, r);
      }
    }
  }

  /** The matches are exactly the maximal runs of digits, and they are in increasing order. */
  lemma RunsAreMaximal(line: string)
    ensures forall k :: 0 <= k < |Runs(line)| ==> MaximalRun(line, Runs(line)[k])
    ensures forall r :: MaximalRun(line, r) <==> r in Runs(line)
    ensures forall k :: 0 < k < |Runs(line)| ==> Runs(line)[k - 1].end < Runs(line)[k].start
  {
    RunsFromMaximal(line, 0);
    RunsFromOrdered(line, 0);
    forall r | MaximalRun(line, r)
      ensures r in Runs(line)
    {
      RunsFromComplete(line, 0, r);
    }
    forall k | 0 <= k < |Runs(line)|
      ensures MaximalRun(line, Runs(line)[k])
    {
      assert Runs(line)[k] in Runs(line);
    }
  }

  /** The adjacency test of `extractAdjacentPartNumbers`: start - 1 <= symbolPos <= end. */
  predicate IsAdjacent(r: Run, symbolPos: int) {
    r.start - 1 <= symbolPos <= r.end
  }

  /** Columns p and col are the same or next to each other. */
  predicate Near(p: int, col: int) {
    -1 <= p - col <= 1
  }

  /** The test agrees with "some digit of the run is at most one column away". */
  lemma AdjacentIffNearDigit(r: Run, symbolPos: int)
    requires r.start < r.end
    ensures IsAdjacent(r, symbolPos) <==>
      exists col :: r.start <= col < r.end && Near(symbolPos, col)
  {
    if IsAdjacent(r, symbolPos) {
      var col := if symbolPos < r.start then r.start
                 else if symbolPos >= r.end then r.end - 1
                 else symbolPos;
      assert r.start <= col < r.end && Near(symbolPos, col);
    }
  }

  /** The values of the adjacent runs, keeping their left-to-right order. */
  function AdjacentValues(runs: seq<Run>, symbolPos: int): seq<nat> {
    if runs == [] then []
    else (if IsAdjacent(runs[0], symbolPos) then [runs[0].value] else [])
         + AdjacentValues(runs[1..], symbolPos)
  }

  /** A value is listed exactly when some adjacent run has it, and never more often than
      there are runs. */
  lemma {:induction false} AdjacentValuesSpec(runs: seq<Run>, symbolPos: int)
    ensures forall v :: v in AdjacentValues(runs, symbolPos) <==>
      exists k :: 0 <= k < |runs| && IsAdjacent(runs[k], symbolPos) && runs[k].value == v
    ensures |AdjacentValues(runs, symbolPos)| <= |runs|
  {
    if runs != [] {
      AdjacentValuesSpec(runs[1..], symbolPos);
      forall k | 0 < k < |runs|
        ensures runs[k] == runs[1..][k - 1]
      {
      }
    }
  }

  lemma AdjacentValuesAppend(runs: seq<Run>, r: Run, symbolPos: int)
    ensures AdjacentValues(runs + [r], symbolPos) ==
      AdjacentValues(runs, symbolPos) + (if IsAdjacent(r, symbolPos) then [r.value] else [])
  {
    if runs != [] {
      assert (runs + [r])[1..] == runs[1..] + [r];
      AdjacentValuesAppend(runs[1..], r, symbolPos);
    }
  }

  /** `extractAdjacentPartNumbers`: the numbers of the line whose run is adjacent to the
      symbol's column, in left-to-right order. */
  method ExtractAdjacentPartNumbers(line: string, symbolPos: int) returns (numbers: seq<nat>)
    ensures numbers == AdjacentValues(Runs(line), symbolPos)
  {
    var runs := Runs(line);
    numbers := [];
    for k := 0 to |runs|
      invariant numbers == AdjacentValues(runs[..k], symbolPos)
    {
      AdjacentValuesAppend(runs[..k], runs[k], symbolPos);
      assert runs[..k + 1] == runs[..k] + [runs[k]];
      if runs[k].start - 1 <= symbolPos && symbolPos <= runs[k].end {
        numbers := numbers + [runs[k].value];
      }
    }
    assert runs[..|runs|] == runs;
  }

  function Sum(xs: seq<nat>): nat {
    if xs == [] then 0 else Sum(xs[..|xs| - 1]) + xs[|xs| - 1]
  }

  lemma SumAppend(xs: seq<nat>, ys: seq<nat>)
    ensures Sum(xs + ys) == Sum(xs) + Sum(ys)
    decreases |ys|
  {
    if ys != [] {
      var zs := xs + ys;
      assert zs[..|zs| - 1] == xs + ys[..|ys| - 1];
      assert zs[|zs| - 1] == ys[|ys| - 1];
      SumAppend(xs, ys[..|ys| - 1]);
      assert Sum(zs) == Sum(zs[..|zs| - 1]) + zs[|zs| - 1];
    } else {
      assert xs + ys == xs;
    }
  }

  /** The numbers adjacent to the symbol at column p of line i: those of the previous line
      (if any), of the line itself, and of the next line (if any). */
  function Neighbours(lines: seq<string>, i: nat, p: int): seq<nat>
    requires i < |lines|
  {
    (if i > 0 then AdjacentValues(Runs(lines[i - 1]), p) else [])
    + AdjacentValues(Runs(lines[i]), p)
    + (if i + 1 < |lines| then AdjacentValues(Runs(lines[i + 1]), p) else [])
  }

  /** What the symbol at column p of line i adds to the part sum and to the gear ratio sum. */
  function PartOf(lines: seq<string>, i: nat, p: nat): nat
    requires i < |lines| && p < |lines[i]|
  {
    if IsSymbol(lines[i][p]) then Sum(Neighbours(lines, i, p)) else 0
  }

  /** The gear ratio of a `*` with exactly two adjacent numbers. */
  function Ratio(ns: seq<nat>): nat
    requires |ns| == 2
  {
    ns[0] * ns[1]
  }

  function GearOf(lines: seq<string>, i: nat, p: nat): nat
    requires i < |lines| && p < |lines[i]|
  {
    var ns := Neighbours(lines, i, p);
    if IsSymbol(lines[i][p]) && lines[i][p] == '*' && |ns| == 2 then Ratio(ns) else 0
  }

  /** The sums over the symbols in columns 0 .. n-1 of line i. */
  function LineParts(lines: seq<string>, i: nat, n: nat): nat
    requires i < |lines| && n <= |lines[i]|
  {
    if n == 0 then 0 else LineParts(lines, i, n - 1) + PartOf(lines, i, n - 1)
  }

  function LineGears(lines: seq<string>, i: nat, n: nat): nat
    requires i < |lines| && n <= |lines[i]|
  {
    if n == 0 then 0 else LineGears(lines, i, n - 1) + GearOf(lines, i, n - 1)
  }

  /** The sums over lines 0 .. n-1. */
  function PartSum(lines: seq<string>, n: nat): nat
    requires n <= |lines|
  {
    if n == 0 then 0 else PartSum(lines, n - 1) + LineParts(lines, n - 1, |lines[n - 1]|)
  }

  function GearSum(lines: seq<string>, n: nat): nat
    requires n <= |lines|
  {
    if n == 0 then 0 else GearSum(lines, n - 1) + LineGears(lines, n - 1, |lines[n - 1]|)
  }

  /** The numbers next to column p on the previous, the current and the next line. */
  method AdjacentLines(lines: seq<string>, i: nat, p: nat)
    returns (prevLineNumbers: seq<nat>, curLineNumbers: seq<nat>, nextLineNumbers: seq<nat>)
    requires i < |lines|
    ensures prevLineNumbers + curLineNumbers + nextLineNumbers == Neighbours(lines, i, p)
  {
    prevLineNumbers, nextLineNumbers := [], [];
    if i > 0 {
      prevLineNumbers := ExtractAdjacentPartNumbers(lines[i - 1], p);
    }
    curLineNumbers := ExtractAdjacentPartNumbers(lines[i], p);
    if i + 1 < |lines| {
      nextLineNumbers := ExtractAdjacentPartNumbers(lines[i + 1], p);
    }
  }

  /** The body of the symbol loop: what the symbol at column p of line i adds to both sums. */
  method SymbolAt(lines: seq<string>, i: nat, p: nat) returns (part: nat, gear: nat)
    requires i < |lines| && p < |lines[i]|
    ensures part == PartOf(lines, i, p)
    ensures gear == GearOf(lines, i, p)
  {
    part, gear := 0, 0;
    if IsSymbol(lines[i][p]) {
      var prevLineNumbers, curLineNumbers, nextLineNumbers := AdjacentLines(lines, i, p);
      SumAppend(prevLineNumbers, curLineNumbers);
      SumAppend(prevLineNumbers + curLineNumbers, nextLineNumbers);
      part := Sum(prevLineNumbers) + Sum(curLineNumbers) + Sum(nextLineNumbers);
      var adjacentPartNumbers := prevLineNumbers + curLineNumbers + nextLineNumbers;
      if lines[i][p] == '*' && |adjacentPartNumbers| == 2 {
        gear := Ratio(adjacentPartNumbers);
      }
    }
  }

  /** The test's sliding window over previous, current and next line. */
  method Day3(lines: seq<string>) returns (partNumbersSum: nat, gearRatioSum: nat)
    ensures partNumbersSum == PartSum(lines, |lines|)
    ensures gearRatioSum == GearSum(lines, |lines|)
  {
    partNumbersSum, gearRatioSum := 0, 0;
    for i := 0 to |lines|
      invariant partNumbersSum == PartSum(lines, i)
      invariant gearRatioSum == GearSum(lines, i)
    {
      var lineParts, lineGears := LineSums(lines, i);
      assert PartSum(lines, i + 1) == PartSum(lines, i) + LineParts(lines, i, |lines[i]|);
      assert GearSum(lines, i + 1) == GearSum(lines, i) + LineGears(lines, i, |lines[i]|);
      partNumbersSum := partNumbersSum + lineParts;
      gearRatioSum := gearRatioSum + lineGears;
    }
  }

  /** The inner loop of the test over the characters of line i. */
  method LineSums(lines: seq<string>, i: nat) returns (lineParts: nat, lineGears: nat)
    requires i < |lines|
    ensures lineParts == LineParts(lines, i, |lines[i]|)
    ensures lineGears == LineGears(lines, i, |lines[i]|)
  {
    lineParts, lineGears := 0, 0;
    for p := 0 to |lines[i]|
      invariant lineParts == LineParts(lines, i, p)
      invariant lineGears == LineGears(lines, i, p)
    {
      var part, gear := SymbolAt(lines, i, p);
      assert LineParts(lines, i, p + 1) == LineParts(lines, i, p) + PartOf(lines, i, p);
      assert LineGears(lines, i, p + 1) == LineGears(lines, i, p) + GearOf(lines, i, p);
      lineParts, lineGears := lineParts + part, lineGears + gear;
    }
  }

  /** A schematic without symbols has no part numbers and no gears. */
  lemma {:induction false} NoSymbolsNoParts(lines: seq<string>, n: nat)
    requires n <= |lines|
    requires forall i, p :: 0 <= i < |lines| && 0 <= p < |lines[i]| ==> !IsSymbol(lines[i][p])
    ensures PartSum(lines, n) == 0 && GearSum(lines, n) == 0
  {
    if n > 0 {
      NoSymbolsNoParts(lines, n - 1);
      NoSymbolsInLine(lines, n - 1, |lines[n - 1]|);
    }
  }

  lemma {:induction false} NoSymbolsInLine(lines: seq<string>, i: nat, n: nat)
    requires i < |lines| && n <= |lines[i]|
    requires forall p :: 0 <= p < |lines[i]| ==> !IsSymbol(lines[i][p])
    ensures LineParts(lines, i, n) == 0 && LineGears(lines, i, n) == 0
  {
    if n > 0 {
      NoSymbolsInLine(lines, i, n - 1);
    }
  }

  /** A number between two symbols is counted once for each of them. */
  lemma CountedTwice()
    ensures PartSum(["*7*"], 1) == 14
  {
    var lines := ["*7*"];
    assert Runs(lines[0]) == [Run(1, 2, 7)] by {
      assert RunEnd(lines[0], 1) == 2;
      assert ParseNat(lines[0][1..2]) == 7 by {
        assert lines[0][1..2] == ['7'];
        assert ParseNat(['7'][..0]) == 0;
      }
    }
    assert LineParts(lines, 0, 1) == 7;
    assert LineParts(lines, 0, 2) == 7;
  }
}
