/** 2024 day 3, "Mull It Over": a corrupted memory line holds instructions among noise. Part 1
    adds the products of every well-formed `mul(a,b)`; part 2 also reads `do()` and `don't()`,
    which switch the following multiplications on and off, across line ends. */
module MulScanner {
  import opened Wrappers
  import opened Decimal
  import opened Ascii

  /** What `\d+` matches: a non-empty string of digits. */
  type Numeral = s: string | |s| > 0 && AllDigits(s) witness "0"

  /** A match of one of the patterns; the operands of `mul` are the numerals of the match. */
  datatype Op = Mul(x: Numeral, y: Numeral) | Do | Dont

  /** The matched text, `matcher.group()`. */
  function Text(t: Op): (s: string)
    ensures |s| >= 4
  {
    match t
    case Mul(x, y) => "mul(" + x + "," + y + ")"
    case Do => "do()"
    case Dont => "don't()"
  }

  predicate OccursAt(line: string, i: nat, s: string) {
    i + |s| <= |line| && line[i..i + |s|] == s
  }

  /** The two patterns: part 1's `mul\(\d+\,\d+\)` and part 2's alternation that adds
      `don't\(\)` and `do\(\)`. */
  datatype Pattern = MulOnly | WithSwitches

  // ---------------------------------------------------------------------------------------
  // Matching at one position

  /** The operands of a `mul\(\d+\,\d+\)` match at position i: "mul(", the digits up to
      the first non-digit, a comma, the digits up to the first non-digit, a closing
      parenthesis. A `\d+` that stops early cannot be followed by the comma or the
      parenthesis, so only maximal runs can match. */
  function MulOperands(line: string, i: nat): Option<(string, string)>
    requires i <= |line|
  {
    if !OccursAt(line, i, "mul(") then None
    else
      var b := RunEnd(line, i + 4);
      if b == i + 4 || b == |line| || line[b] != ',' then None
      else
        var c := RunEnd(line, b + 1);
        if c == b + 1 || c == |line| || line[c] != ')' then None
        else Some((line[i + 4..b], line[b + 1..c]))
  }

  lemma DigitSlice(line: string, a: nat, b: nat)
    requires a < b <= |line| && forall q :: a <= q < b ==> IsDigit(line[q])
    ensures |line[a..b]| > 0 && AllDigits(line[a..b])
  {
    forall k | 0 <= k < b - a
      ensures IsDigit(line[a..b][k])
    {
      assert line[a..b][k] == line[a + k];
    }
  }

  /** What MulOperands finds is a pair of numerals, and the text of their `mul` is there. */
  lemma MulOperandsSound(line: string, i: nat)
    requires i <= |line| && MulOperands(line, i).Some?
    ensures var (x, y) := MulOperands(line, i).value;
      && |x| > 0 && AllDigits(x) && |y| > 0 && AllDigits(y)
      && OccursAt(line, i, "mul(" + x + "," + y + ")")
  {
    var b := RunEnd(line, i + 4);
    var c := RunEnd(line, b + 1);
    DigitSlice(line, i + 4, b);
    DigitSlice(line, b + 1, c);
    MulTextAt(line, i, b, c);
  }

  /** The text from "mul(" at i to the ')' at c, with the ',' at b between the operands. */
  lemma MulTextAt(line: string, i: nat, b: nat, c: nat)
    requires i + 4 < b < c < |line| && line[i..i + 4] == "mul(" && line[b] == ',' && line[c] == ')'
    ensures line[i..c + 1] == "mul(" + line[i + 4..b] + "," + line[b + 1..c] + ")"
  {
    assert line[i..c + 1] == line[i..i + 4] + line[i + 4..b] + [line[b]] + line[b + 1..c] + [line[c]];
  }

  /** `mul\(\d+\,\d+\)` at position i. */
  function MulAt(line: string, i: nat): (m: Option<Op>)
    requires i <= |line|
    ensures m.Some? ==> m.value.Mul? && OccursAt(line, i, Text(m.value))
  {
    match MulOperands(line, i)
    case None => None
    case Some((x, y)) =>
      MulOperandsSound(line, i);
      Some(Mul(x, y))
  }

  lemma {:induction false} RunEndAt(line: string, a: nat, b: nat)
    requires a <= b <= |line|
    requires forall q :: a <= q < b ==> IsDigit(line[q])
    requires b == |line| || !IsDigit(line[b])
    ensures RunEnd(line, a) == b
    decreases b - a
  {
    if a < b {
      RunEndAt(line, a + 1, b);
    }
  }

  /** Where the parts of a `mul(x,y)` text lie in the line. */
  lemma MulLayout(line: string, i: nat, x: Numeral, y: Numeral)
    requires OccursAt(line, i, Text(Mul(x, y)))
    ensures var b := i + 4 + |x|;
      var c := b + 1 + |y|;
      && c < |line|
      && line[i..i + 4] == "mul(" && line[i + 4..b] == x && line[b] == ','
      && line[b + 1..c] == y && line[c] == ')'
  {
    var b := i + 4 + |x|;
    var c := b + 1 + |y|;
    var w := line[i..c + 1];
    assert w == "mul(" + x + "," + y + ")";
    assert w[..4] == "mul(" && line[i..i + 4] == w[..4];
    forall k | 0 <= k < |x|
      ensures line[i + 4..b][k] == x[k]
    {
      assert line[i + 4 + k] == w[4 + k];
    }
    assert w[4 + |x|] == ',';
    forall k | 0 <= k < |y|
      ensures line[b + 1..c][k] == y[k]
    {
      assert line[b + 1 + k] == w[5 + |x| + k];
    }
    assert w[|w| - 1] == ')';
  }

  lemma DigitsOf(line: string, a: nat, x: Numeral)
    requires a + |x| <= |line| && line[a..a + |x|] == x
    ensures forall q :: a <= q < a + |x| ==> IsDigit(line[q])
  {
    forall q | a <= q < a + |x|
      ensures IsDigit(line[q])
    {
      assert line[q] == x[q - a];
    }
  }

  /** Every `mul(x,y)` with digit operands that occurs at i is what MulAt finds there. */
  lemma MulAtComplete(line: string, i: nat, t: Op)
    requires t.Mul? && OccursAt(line, i, Text(t))
    ensures MulAt(line, i) == Some(t)
  {
    var a := i + 4;
    var b := a + |t.x|;
    var c := b + 1 + |t.y|;
    MulLayout(line, i, t.x, t.y);
    DigitsOf(line, a, t.x);
    DigitsOf(line, b + 1, t.y);
    RunEndAt(line, a, b);
    RunEndAt(line, b + 1, c);
    MulOperandsAt(line, i, b, c, t.x, t.y);
  }

  lemma MulOperandsAt(line: string, i: nat, b: nat, c: nat, x: Numeral, y: Numeral)
    requires i + 4 < b < c < |line| && OccursAt(line, i, "mul(")
    requires RunEnd(line, i + 4) == b && line[b] == ','
    requires RunEnd(line, b + 1) == c && line[c] == ')'
    requires line[i + 4..b] == x && line[b + 1..c] == y
    ensures MulOperands(line, i) == Some((x, y))
  {
  }

  /** The pattern at position i; the alternatives are tried in the order they are written. */
  function InstructionAt(line: string, i: nat, p: Pattern): (m: Option<Op>)
    requires i <= |line|
    ensures m.Some? ==> OccursAt(line, i, Text(m.value))
    ensures m.Some? && p == MulOnly ==> m.value.Mul?
  {
    match MulAt(line, i)
    case Some(t) => Some(t)
    case None =>
      if p == MulOnly then None
      else if OccursAt(line, i, "don't()") then Some(Dont)
      else if OccursAt(line, i, "do()") then Some(Do)
      else None
  }

  /** Whatever instruction the pattern admits and occurs at i is what is found there: at
      most one instruction can start at a position. */
  lemma InstructionAtComplete(line: string, i: nat, p: Pattern, t: Op)
    requires OccursAt(line, i, Text(t)) && (p == WithSwitches || t.Mul?)
    ensures InstructionAt(line, i, p) == Some(t)
  {
    if t.Mul? {
      MulAtComplete(line, i, t);
    } else {
      assert line[i..i + |Text(t)|][0] == 'd';
      assert line[i] == 'd';
      if t == Do {
        assert line[i..i + 4][2] == '(';
        assert !OccursAt(line, i, "don't()") by {
          if i + 7 <= |line| {
            assert line[i..i + 7][2] == line[i + 2] == '(';
          }
        }
      }
    }
  }

  // ---------------------------------------------------------------------------------------
  // Scanning a line

  /** The successive `matcher.find()` results from position i: a match resumes the search
      after its end, a position without a match moves on by one. */
  function ScanFrom(line: string, i: nat, p: Pattern): (ops: seq<Op>)
    requires i <= |line|
    decreases |line| - i
  {
    if i == |line| then []
    else
      match InstructionAt(line, i, p)
      case Some(t) => [t] + ScanFrom(line, i + |Text(t)|, p)
      case None => ScanFrom(line, i + 1, p)
  }

  function Matches(line: string, p: Pattern): seq<Op> {
    ScanFrom(line, 0, p)
  }

  /** The instructions of all lines, line after line. */
  function Instructions(lines: seq<string>, p: Pattern): seq<Op> {
    if lines == [] then []
    else Instructions(lines[..|lines| - 1], p) + Matches(lines[|lines| - 1], p)
  }

  /** The multiplications among some instructions, in order. */
  function Muls(ops: seq<Op>): (ms: seq<Op>)
    ensures forall k :: 0 <= k < |ms| ==> ms[k].Mul?
  {
    if ops == [] then []
    else Muls(ops[..|ops| - 1]) + if ops[|ops| - 1].Mul? then [ops[|ops| - 1]] else []
  }

  lemma {:induction false} MulsAppend(xs: seq<Op>, ys: seq<Op>)
    ensures Muls(xs + ys) == Muls(xs) + Muls(ys)
  {
    if ys == [] {
      assert xs + ys == xs;
    } else {
      var init := ys[..|ys| - 1];
      MulsAppend(xs, init);
      assert (xs + ys)[..|xs + ys| - 1] == xs + init;
      assert (xs + ys)[|xs + ys| - 1] == ys[|ys| - 1];
    }
  }

  lemma NoMulWithoutM(line: string, i: nat)
    requires i < |line| && line[i] != 'm'
    ensures MulAt(line, i).None?
  {
    if i + 4 <= |line| {
      assert line[i..i + 4][0] == line[i];
    }
  }

  /** Without a letter m in line[i..j] no `mul` starts there, so part 1's scan skips it. */
  lemma {:induction false} SkipWithoutM(line: string, i: nat, j: nat)
    requires i <= j <= |line|
    requires forall q :: i <= q < j ==> line[q] != 'm'
    ensures ScanFrom(line, i, MulOnly) == ScanFrom(line, j, MulOnly)
    decreases j - i
  {
    if i < j {
      NoMulWithoutM(line, i);
      SkipWithoutM(line, i + 1, j);
    }
  }

  lemma MulsCons(t: Op, rest: seq<Op>)
    ensures Muls([t] + rest) == (if t.Mul? then [t] else []) + Muls(rest)
  {
    MulsAppend([t], rest);
    MulsSingle(t);
  }

  lemma MulsSingle(t: Op)
    ensures Muls([t]) == if t.Mul? then [t] else []
  {
    assert [t][..0] == [];
  }

  /** A `do()` or `don't()` holds no letter m. */
  lemma NoMInSwitch(line: string, i: nat, t: Op)
    requires !t.Mul? && OccursAt(line, i, Text(t))
    ensures forall q :: i <= q < i + |Text(t)| ==> line[q] != 'm'
  {
    var e := i + |Text(t)|;
    forall q | i <= q < e
      ensures line[q] != 'm'
    {
      assert line[q] == line[i..e][q - i] == Text(t)[q - i];
    }
  }

  /** No match at position i: the scan moves on by one. */
  lemma ScanFromNone(line: string, i: nat, p: Pattern)
    requires i < |line| && InstructionAt(line, i, p).None?
    ensures ScanFrom(line, i, p) == ScanFrom(line, i + 1, p)
  {
  }

  /** A match t at position i: the scan records it and resumes at j, after its text. */
  lemma ScanFromSome(line: string, i: nat, j: nat, p: Pattern, t: Op)
    requires i < |line| && InstructionAt(line, i, p) == Some(t) && j == i + |Text(t)|
    ensures j <= |line| && ScanFrom(line, i, p) == [t] + ScanFrom(line, j, p)
  {
    assert OccursAt(line, i, Text(t));
    var rest := ScanFrom(line, j, p);
    assert ScanFrom(line, i, p) == [t] + rest;
  }

  /** Part 1's scan finds only multiplications. */
  lemma {:induction false} ScanFindsMuls(line: string, i: nat)
    requires i <= |line|
    ensures forall k :: 0 <= k < |ScanFrom(line, i, MulOnly)| ==> ScanFrom(line, i, MulOnly)[k].Mul?
    decreases |line| - i
  {
    if i < |line| {
      match InstructionAt(line, i, MulOnly)
      case None =>
        ScanFromNone(line, i, MulOnly);
        ScanFindsMuls(line, i + 1);
      case Some(t) =>
        var e := i + |Text(t)|;
        ScanFromSome(line, i, e, MulOnly, t);
        ScanFindsMuls(line, e);
    }
  }

  /** Part 2's scan finds part 1's multiplications, and between them only `do()` and
      `don't()`: a switch never hides a `mul`, nor a `mul` a switch. */
  lemma {:induction false} ScanMuls(line: string, i: nat)
    requires i <= |line|
    ensures Muls(ScanFrom(line, i, WithSwitches)) == ScanFrom(line, i, MulOnly)
    decreases |line| - i
  {
    if i < |line| {
      var m := InstructionAt(line, i, WithSwitches);
      if m.None? {
        assert MulAt(line, i).None?;
        assert InstructionAt(line, i, MulOnly).None?;
        ScanFromNone(line, i, WithSwitches);
        ScanFromNone(line, i, MulOnly);
        ScanMuls(line, i + 1);
      } else {
        var t := m.value;
        var e := i + |Text(t)|;
        ScanFromSome(line, i, e, WithSwitches, t);
        ScanMuls(line, e);
        MulsCons(t, ScanFrom(line, e, WithSwitches));
        if t.Mul? {
          assert InstructionAt(line, i, MulOnly) == Some(t);
          ScanFromSome(line, i, e, MulOnly, t);
        } else {
          SkipSwitch(line, i, e, t);
        }
      }
    }
  }

  /** Part 1's scan passes over a `do()` or `don't()` without a match. */
  lemma SkipSwitch(line: string, i: nat, j: nat, t: Op)
    requires !t.Mul? && OccursAt(line, i, Text(t)) && j == i + |Text(t)|
    ensures ScanFrom(line, i, MulOnly) == ScanFrom(line, j, MulOnly)
  {
    NoMInSwitch(line, i, t);
    SkipWithoutM(line, i, j);
  }

  // ---------------------------------------------------------------------------------------
  // Part 1

  /** `operands[0] * operands[1]` for the two numerals of a `mul`. */
  function Product(t: Op): nat
    requires t.Mul?
  {
    ParseNat(t.x) * ParseNat(t.y)
  }

  /** The products of the multiplications among some instructions. */
  function MulSum(ops: seq<Op>): (sum: int)
    ensures sum >= 0
  {
    if ops == [] then 0
    else
      var t := ops[|ops| - 1];
      MulSum(ops[..|ops| - 1]) + if t.Mul? then Product(t) else 0
  }

  /** Only the multiplications add to the sum. */
  lemma {:induction false} MulSumOfMuls(ops: seq<Op>)
    ensures MulSum(Muls(ops)) == MulSum(ops)
  {
    if ops != [] {
      var init, t := ops[..|ops| - 1], ops[|ops| - 1];
      MulSumOfMuls(init);
      if t.Mul? {
        assert (Muls(init) + [t])[..|Muls(init)|] == Muls(init);
        assert (Muls(init) + [t])[|Muls(init)|] == t;
      } else {
        assert Muls(init) + [] == Muls(init);
      }
    }
  }

  /** `test_day3Part1`: every `mul(a,b)` of every line adds a·b. */
  method Day3Part1(lines: seq<string>) returns (acMulSum: int)
    ensures acMulSum == MulSum(Instructions(lines, MulOnly))
  {
    acMulSum := 0;
    for i := 0 to |lines|
      invariant acMulSum == MulSum(Instructions(lines[..i], MulOnly))
    {
      assert lines[..i + 1][..i] == lines[..i];
      assert Instructions(lines[..i + 1], MulOnly) == Instructions(lines[..i], MulOnly) + Matches(lines[i], MulOnly);
      acMulSum := AddLineProducts(acMulSum, Instructions(lines[..i], MulOnly), lines[i]);
    }
    assert lines[..|lines|] == lines;
  }

  /** The inner `while (matcher.find())` loop over the matches of one line. */
  method AddLineProducts(sum: int, ghost before: seq<Op>, line: string) returns (acMulSum: int)
    requires sum == MulSum(before)
    ensures acMulSum == MulSum(before + Matches(line, MulOnly))
  {
    acMulSum := sum;
    var ms := Matches(line, MulOnly);
    ScanFindsMuls(line, 0);
    for j := 0 to |ms|
      invariant acMulSum == sum + MulSum(ms[..j])
    {
      MulSumPrefix(ms, j);
      acMulSum := acMulSum + Product(ms[j]);
    }
    assert ms[..|ms|] == ms;
    MulSumAppend(before, ms);
  }

  /** Appending an instruction adds its product when it is a multiplication. */
  lemma MulSumSnoc(ops: seq<Op>, t: Op)
    ensures MulSum(ops + [t]) == MulSum(ops) + if t.Mul? then Product(t) else 0
  {
    assert (ops + [t])[..|ops|] == ops;
  }

  lemma MulSumPrefix(ops: seq<Op>, j: nat)
    requires j < |ops|
    ensures MulSum(ops[..j + 1]) == MulSum(ops[..j]) + if ops[j].Mul? then Product(ops[j]) else 0
  {
    assert ops[..j + 1] == ops[..j] + [ops[j]];
    MulSumSnoc(ops[..j], ops[j]);
  }

  /** The products of two runs of instructions add up. */
  lemma {:induction false} MulSumAppend(xs: seq<Op>, ys: seq<Op>)
    ensures MulSum(xs + ys) == MulSum(xs) + MulSum(ys)
    decreases |ys|
  {
    if ys == [] {
      assert xs + ys == xs;
    } else {
      var init, last := ys[..|ys| - 1], ys[|ys| - 1];
      assert xs + ys == (xs + init) + [last];
      assert ys == init + [last];
      MulSumAppend(xs, init);
      MulSumSnoc(xs + init, last);
      MulSumSnoc(init, last);
    }
  }

  // ---------------------------------------------------------------------------------------
  // Part 2

  /** The running sum and the `doIt` flag. */
  datatype State = State(sum: int, doIt: bool)

  function FirstIndex(s: string, c: char): (r: Option<nat>)
    ensures r.Some? ==> r.value < |s| && s[r.value] == c && forall k :: 0 <= k < r.value ==> s[k] != c
    ensures r.None? ==> forall k :: 0 <= k < |s| ==> s[k] != c
  {
    if s == [] then None
    else if s[0] == c then Some(0)
    else match FirstIndex(s[1..], c)
      case None => None
      case Some(k) => Some(k + 1)
  }

  function LastIndex(s: string, c: char): (r: Option<nat>)
    ensures r.Some? ==> r.value < |s| && s[r.value] == c && forall k :: r.value < k < |s| ==> s[k] != c
    ensures r.None? ==> forall k :: 0 <= k < |s| ==> s[k] != c
  {
    if s == [] then None
    else if s[|s| - 1] == c then Some(|s| - 1)
    else LastIndex(s[..|s| - 1], c)
  }

  /** A '(' at p with a ')' after it at q: the text `\\(.*\\)` can match from p to q. */
  predicate GroupAt(s: string, p: int, q: int) {
    0 <= p < q < |s| && s[p] == '(' && s[q] == ')'
  }

  /** `replaceAll("\\(.*\\)", "")` on text without line terminators: the leftmost match
      starts at the first '(' and, `.*` being greedy, ends at the last ')'; nothing after it
      can match again. Without a ')' after the first '(' nothing matches. */
  function RemoveGroup(s: string): string {
    match FirstIndex(s, '(')
    case None => s
    case Some(p) =>
      match LastIndex(s, ')')
      case None => s
      case Some(q) => if p < q then s[..p] + s[q + 1..] else s
  }

  /** The removed part runs from the first '(' to the last ')', when a ')' follows some '(';
      otherwise the text is kept whole. */
  lemma RemoveGroupSpec(s: string)
    ensures (exists p, q :: GroupAt(s, p, q)) ==>
      exists p, q :: GroupAt(s, p, q) && RemoveGroup(s) == s[..p] + s[q + 1..]
        && (forall k :: 0 <= k < p ==> s[k] != '(') && (forall k :: q < k < |s| ==> s[k] != ')')
    ensures !(exists p, q :: GroupAt(s, p, q)) ==> RemoveGroup(s) == s
  {
    var f, l := FirstIndex(s, '('), LastIndex(s, ')');
    forall p, q | GroupAt(s, p, q)
      ensures f.Some? && l.Some? && f.value <= p < q <= l.value
    {
      GroupBounds(s, p, q);
    }
    if f.Some? && l.Some? && f.value < l.value {
      RemoveGroupCut(s);
    } else {
      RemoveGroupKept(s);
    }
  }

  lemma RemoveGroupCut(s: string)
    requires FirstIndex(s, '(').Some? && LastIndex(s, ')').Some?
    requires FirstIndex(s, '(').value < LastIndex(s, ')').value
    ensures var p, q := FirstIndex(s, '(').value, LastIndex(s, ')').value;
      GroupAt(s, p, q) && RemoveGroup(s) == s[..p] + s[q + 1..]
  {
  }

  lemma RemoveGroupKept(s: string)
    requires !(FirstIndex(s, '(').Some? && LastIndex(s, ')').Some? && FirstIndex(s, '(').value < LastIndex(s, ')').value)
    ensures RemoveGroup(s) == s
  {
  }

  /** The name of an operation: its text without the parenthesised part, in lower case. */
  function Operation(t: Op): string {
    LowerString(RemoveGroup(Text(t)))
  }

  function Name(t: Op): string {
    match t
    case Mul(_, _) => "mul"
    case Do => "do"
    case Dont => "don't"
  }

  /** Any '(' is at or after the first one, and any ')' at or before the last one. */
  lemma GroupBounds(s: string, p: int, q: int)
    requires GroupAt(s, p, q)
    ensures FirstIndex(s, '(').Some? && FirstIndex(s, '(').value <= p
    ensures LastIndex(s, ')').Some? && q <= LastIndex(s, ')').value
  {
    assert s[p] == '(' && s[q] == ')';
  }

  lemma RemoveGroupAt(s: string, p: nat)
    requires p < |s| - 1 && s[p] == '(' && s[|s| - 1] == ')'
    requires forall k :: 0 <= k < p ==> s[k] != '('
    ensures RemoveGroup(s) == s[..p]
  {
    var f := FirstIndex(s, '(');
    var l := LastIndex(s, ')');
    assert f == Some(p);
    assert l == Some(|s| - 1);
    assert s[|s|..] == [];
  }

  /** Every matched instruction has one of the three names the switch knows, so the
      `default` branch is never taken. */
  lemma OperationOf(t: Op)
    ensures Operation(t) == Name(t)
  {
    var s := Text(t);
    match t
    case Mul(x, y) =>
      assert s[3] == '(' && s[..3] == "mul";
      assert forall k :: 0 <= k < 3 ==> s[k] == "mul"[k];
      RemoveGroupAt(s, 3);
      LowerStringUnchanged("mul");
    case Do =>
      RemoveGroupAt(s, 2);
      assert s[..2] == "do";
      LowerStringUnchanged("do");
    case Dont =>
      RemoveGroupAt(s, 5);
      assert s[..5] == "don't";
      LowerStringUnchanged("don't");
  }

  /** What one instruction does to the running sum and the flag. */
  function Step(s: State, t: Op): (r: State)
    ensures s.sum <= r.sum
    ensures r.sum != s.sum ==> t.Mul? && s.doIt
    ensures r.doIt == (t.Do? || (t.Mul? && s.doIt))
  {
    match t
    case Mul(_, _) => if s.doIt then State(s.sum + Product(t), s.doIt) else s
    case Do => State(s.sum, true)
    case Dont => State(s.sum, false)
  }

  function Run(ops: seq<Op>, start: State): State {
    if ops == [] then start else Step(Run(ops[..|ops| - 1], start), ops[|ops| - 1])
  }

  /** The sum of part 2 over all lines: the flag starts on and is not reset per line. */
  function Part2(lines: seq<string>): int {
    Run(Instructions(lines, WithSwitches), State(0, true)).sum
  }

  /** The rule as the puzzle states it: before instruction k multiplications are enabled
      unless a `don't()` came earlier with no `do()` after it. */
  predicate Enabled(ops: seq<Op>, k: nat)
    requires k <= |ops|
  {
    forall j :: 0 <= j < k && ops[j].Dont? ==> exists m :: j < m < k && ops[m].Do?
  }

  /** The products of the enabled multiplications among the first n instructions. */
  function EnabledSum(ops: seq<Op>, n: nat): (sum: int)
    requires n <= |ops|
    ensures sum >= 0
  {
    if n == 0 then 0
    else
      var t := ops[n - 1];
      EnabledSum(ops, n - 1) + if t.Mul? && Enabled(ops, n - 1) then Product(t) else 0
  }

  /** `do()` enables, `don't()` disables, and a multiplication leaves the flag alone. */
  lemma EnabledStep(ops: seq<Op>, n: nat)
    requires n < |ops|
    ensures Enabled(ops, n + 1) <==> ops[n].Do? || (ops[n].Mul? && Enabled(ops, n))
  {
    if ops[n].Mul? && Enabled(ops, n) {
      forall j | 0 <= j < n + 1 && ops[j].Dont?
        ensures exists m :: j < m < n + 1 && ops[m].Do?
      {
        var m :| j < m < n && ops[m].Do?;
      }
    }
    if ops[n].Mul? && Enabled(ops, n + 1) {
      forall j | 0 <= j < n && ops[j].Dont?
        ensures exists m :: j < m < n && ops[m].Do?
      {
        var m :| j < m < n + 1 && ops[m].Do?;
      }
    }
  }

  /** The state after the first n instructions holds the enabled products and the flag the
      rule gives, and never an error. */
  lemma {:induction false} RunReference(ops: seq<Op>, n: nat)
    requires n <= |ops|
    ensures Run(ops[..n], State(0, true)) == State(EnabledSum(ops, n), Enabled(ops, n))
  {
    if n > 0 {
      RunReference(ops, n - 1);
      assert ops[..n][..n - 1] == ops[..n - 1];
      EnabledStep(ops, n - 1);
    }
  }

  /** Part 2's result is the sum of the enabled products. */
  lemma Part2Value(lines: seq<string>)
    ensures var ops := Instructions(lines, WithSwitches);
      Part2(lines) == EnabledSum(ops, |ops|)
  {
    var ops := Instructions(lines, WithSwitches);
    RunReference(ops, |ops|);
    assert ops[..|ops|] == ops;
  }

  /** The enabled products are some of all the products. */
  lemma {:induction false} EnabledSumAtMost(ops: seq<Op>, n: nat)
    requires n <= |ops|
    ensures EnabledSum(ops, n) <= MulSum(ops[..n])
  {
    if n > 0 {
      EnabledSumAtMost(ops, n - 1);
      assert ops[..n][..n - 1] == ops[..n - 1];
    }
  }

  /** Without a `don't()` every multiplication is enabled. */
  lemma {:induction false} EnabledSumWithoutDont(ops: seq<Op>, n: nat)
    requires n <= |ops| && forall k :: 0 <= k < |ops| ==> !ops[k].Dont?
    ensures EnabledSum(ops, n) == MulSum(ops[..n])
  {
    if n > 0 {
      EnabledSumWithoutDont(ops, n - 1);
      assert ops[..n][..n - 1] == ops[..n - 1];
    }
  }

  /** Part 2 reads the same multiplications as part 1. */
  lemma {:induction false} InstructionsMuls(lines: seq<string>)
    ensures Muls(Instructions(lines, WithSwitches)) == Instructions(lines, MulOnly)
  {
    if lines != [] {
      var init := lines[..|lines| - 1];
      InstructionsMuls(init);
      MulsAppend(Instructions(init, WithSwitches), Matches(lines[|lines| - 1], WithSwitches));
      ScanMuls(lines[|lines| - 1], 0);
    }
  }

  /** Part 2's sum never exceeds part 1's, and they agree when no `don't()` occurs. */
  lemma Part2AtMostPart1(lines: seq<string>)
    ensures Part2(lines) <= MulSum(Instructions(lines, MulOnly))
    ensures (forall k :: 0 <= k < |Instructions(lines, WithSwitches)| ==> !Instructions(lines, WithSwitches)[k].Dont?)
      ==> Part2(lines) == MulSum(Instructions(lines, MulOnly))
  {
    var ops := Instructions(lines, WithSwitches);
    Part2Value(lines);
    InstructionsMuls(lines);
    MulSumOfMuls(ops);
    EnabledSumAtMost(ops, |ops|);
    assert ops[..|ops|] == ops;
    if forall k :: 0 <= k < |ops| ==> !ops[k].Dont? {
      EnabledSumWithoutDont(ops, |ops|);
    }
  }

  lemma {:induction false} RunAppend(xs: seq<Op>, ys: seq<Op>, start: State)
    ensures Run(xs + ys, start) == Run(ys, Run(xs, start))
  {
    if ys == [] {
      assert xs + ys == xs;
    } else {
      var init := ys[..|ys| - 1];
      RunAppend(xs, init, start);
      assert (xs + ys)[..|xs + ys| - 1] == xs + init;
      assert (xs + ys)[|xs + ys| - 1] == ys[|ys| - 1];
    }
  }

  /** The inner loop of `test_day3Part2` over the matches of one line: the switch on the
      operation name, with the sum and the flag it starts from. */
  method ExecuteLine(ms: seq<Op>, sum: int, flag: bool) returns (acMulSum: int, doIt: bool)
    ensures State(acMulSum, doIt) == Run(ms, State(sum, flag))
  {
    acMulSum, doIt := sum, flag;
    for j := 0 to |ms|
      invariant State(acMulSum, doIt) == Run(ms[..j], State(sum, flag))
    {
      assert ms[..j + 1][..j] == ms[..j];
      var expression := Text(ms[j]);
      var operation := LowerString(RemoveGroup(expression));
      OperationOf(ms[j]);
      if operation == "mul" {
        if doIt {
          acMulSum := acMulSum + Product(ms[j]);
        }
      } else if operation == "do" {
        doIt := true;
      } else if operation == "don't" {
        doIt := false;
      } else {
        // OperationOf: no match has another name.
        assert false;
      }
    }
    assert ms[..|ms|] == ms;
  }

  /** `test_day3Part2`: the loop over the lines, with the `doIt` flag carried from line to
      line. */
  method Day3Part2(lines: seq<string>) returns (acMulSum: int)
    ensures acMulSum == Part2(lines)
  {
    acMulSum := 0;
    var doIt := true;
    for i := 0 to |lines|
      invariant Run(Instructions(lines[..i], WithSwitches), State(0, true)) == State(acMulSum, doIt)
    {
      assert lines[..i + 1][..i] == lines[..i];
      var ms := Matches(lines[i], WithSwitches);
      RunAppend(Instructions(lines[..i], WithSwitches), ms, State(0, true));
      acMulSum, doIt := ExecuteLine(ms, acMulSum, doIt);
    }
    assert lines[..|lines|] == lines;
  }
}
