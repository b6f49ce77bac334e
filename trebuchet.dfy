/** 2023 day 1, "Trebuchet?!": the calibration value of a line is the two-digit number made
    of its first and its last digit token; the checksum is the sum over all lines. Part 1
    (and the earlier `AdventOfCode2023.day1`) recognises only the digits `\d`; part 2 also
    the spelled-out names "one" .. "nine", found at every position so that overlapping
    names both count. */
module Trebuchet {
  import opened Wrappers
  import opened Decimal

  /** The two patterns: `\d`, and `(\d|one|two|three|four|five|six|seven|eight|nine)`. */
  datatype Pattern = DigitsOnly | DigitsAndWords

  /** The exception raised for a line without any digit token. */
  datatype Error = NoCalibrationValues(line: string)

  /** The alternatives the pattern accepts besides a single digit, in the order it lists them. */
  function Alternatives(p: Pattern): seq<string> {
    match p
    case DigitsOnly => []
    case DigitsAndWords => ["one", "two", "three", "four", "five", "six", "seven", "eight", "nine"]
  }

  /** A match of the pattern: a numeral character, or the k-th alternative. */
  datatype Token = Numeral(c: char) | Spelled(k: nat)

  predicate ValidToken(t: Token, alts: seq<string>) {
    match t
    case Numeral(c) => IsDigit(c)
    case Spelled(k) => k < |alts|
  }

  /** The matched text, `matcher.group()`. */
  function Text(t: Token, alts: seq<string>): string
    requires ValidToken(t, alts)
  {
    match t
    case Numeral(c) => [c]
    case Spelled(k) => alts[k]
  }

  predicate OccursAt(t: string, line: string, i: nat) {
    i + |t| <= |line| && line[i..i + |t|] == t
  }

  /** The first of the alternatives alts[k..] that occurs at position i. */
  function WordAt(line: string, i: nat, alts: seq<string>, k: nat): (r: Option<Token>)
    requires k <= |alts|
    ensures r.Some? ==> r.value.Spelled? && k <= r.value.k < |alts| && OccursAt(alts[r.value.k], line, i)
    ensures r.Some? ==> forall j :: k <= j < r.value.k ==> !OccursAt(alts[j], line, i)
    ensures r.None? ==> forall j :: k <= j < |alts| ==> !OccursAt(alts[j], line, i)
    decreases |alts| - k
  {
    if k == |alts| then None
    else if OccursAt(alts[k], line, i) then Some(Spelled(k))
    else WordAt(line, i, alts, k + 1)
  }

  /** The match of the pattern that starts at position i: a digit, else the first alternative
      that occurs there. */
  function TokenAt(line: string, i: nat, alts: seq<string>): (r: Option<Token>)
    requires i < |line|
    ensures r.Some? ==> ValidToken(r.value, alts) && OccursAt(Text(r.value, alts), line, i)
    ensures r.None? ==> !IsDigit(line[i]) && forall j :: 0 <= j < |alts| ==> !OccursAt(alts[j], line, i)
  {
    if IsDigit(line[i]) then
      assert OccursAt([line[i]], line, i);
      Some(Numeral(line[i]))
    else WordAt(line, i, alts, 0)
  }

  /** All matches that start at or after position i, in order of their start. The scan
      restarts one position after each match start, so overlapping matches are all found. */
  function TokensFrom(line: string, i: nat, alts: seq<string>): (ts: seq<Token>)
    requires i <= |line|
    ensures forall t :: t in ts ==> ValidToken(t, alts)
    decreases |line| - i
  {
    if i == |line| then []
    else match TokenAt(line, i, alts)
      case Some(t) => [t] + TokensFrom(line, i + 1, alts)
      case None => TokensFrom(line, i + 1, alts)
  }

  function Tokens(line: string, p: Pattern): seq<Token> {
    TokensFrom(line, 0, Alternatives(p))
  }

  /** `translateLiteralNumber`: a spelled-out digit becomes its numeral; any other token is kept. */
  function Translate(number: string): (r: string)
    ensures r != number ==> |r| == 1 && IsDigit(r[0])
  {
    match number
    case "one" => "1"
    case "two" => "2"
    case "three" => "3"
    case "four" => "4"
    case "five" => "5"
    case "six" => "6"
    case "seven" => "7"
    case "eight" => "8"
    case "nine" => "9"
    case _ => number
  }

  /** The digit a token stands for. */
  function TokenDigit(t: Token): nat {
    match t
    case Numeral(c) => if IsDigit(c) then DigitValue(c) else 0
    case Spelled(k) => k + 1
  }

  /** Translating the matched text of a token yields the numeral of the digit it stands for;
      a numeral is returned unchanged. */
  lemma TranslateText(t: Token, p: Pattern)
    requires ValidToken(t, Alternatives(p))
    ensures var r := Translate(Text(t, Alternatives(p)));
      |r| == 1 && IsDigit(r[0]) && DigitValue(r[0]) == TokenDigit(t)
    ensures t.Numeral? ==> Translate(Text(t, Alternatives(p))) == Text(t, Alternatives(p))
  {
    match t
    case Numeral(c) =>
      assert |Text(t, Alternatives(p))| == 1;
    case Spelled(k) =>
      assert p == DigitsAndWords;
      assert k < 9;
      if k == 0 {} else if k == 1 {} else if k == 2 {} else if k == 3 {} else if k == 4 {}
      else if k == 5 {} else if k == 6 {} else if k == 7 {} else {}
  }

  /** The calibration value: the first token's digit followed by the last token's digit,
      or None when the line has no token at all. */
  function CalibrationValue(line: string, p: Pattern): (v: Option<nat>)
    ensures v.None? <==> Tokens(line, p) == []
  {
    var ts := Tokens(line, p);
    if ts == [] then None
    else Some(10 * TokenDigit(ts[0]) + TokenDigit(ts[|ts| - 1]))
  }

  /** `Integer.parseInt(first.concat(last))` on two translated tokens reads the first token's
      digit, then the last's. */
  lemma ParsedPair(a: Token, b: Token, p: Pattern)
    requires ValidToken(a, Alternatives(p)) && ValidToken(b, Alternatives(p))
    ensures var numeral := Translate(Text(a, Alternatives(p))) + Translate(Text(b, Alternatives(p)));
      AllDigits(numeral) && ParseNat(numeral) == 10 * TokenDigit(a) + TokenDigit(b)
  {
    var alts := Alternatives(p);
    var first, last := Translate(Text(a, alts)), Translate(Text(b, alts));
    TranslateText(a, p);
    TranslateText(b, p);
    ParseTwoDigits(first[0], last[0]);
    assert first + last == [first[0], last[0]];
  }

  /** A line with a single token yields that digit twice. */
  lemma SingleTokenTwice(line: string, p: Pattern)
    requires |Tokens(line, p)| == 1
    ensures CalibrationValue(line, p) == Some(11 * TokenDigit(Tokens(line, p)[0]))
  {
  }

  /** The checksum of the lines read so far, given the value of one line: the sum of the
      values, or the error for the first line that has none. */
  function Total(lines: seq<string>, value: string -> Option<nat>): Result<int, Error> {
    if lines == [] then Ok(0)
    else
      var front, line := lines[..|lines| - 1], lines[|lines| - 1];
      match Total(front, value)
      case Err(e) => Err(e)
      case Ok(sum) =>
        match value(line)
        case None => Err(NoCalibrationValues(line))
        case Some(v) => Ok(sum + v)
  }

  /** The calibration value of a line under pattern p, as a function of the line. */
  function ValueOf(p: Pattern): string -> Option<nat> {
    line => CalibrationValue(line, p)
  }

  /** The checksum of the lines read so far under pattern p. */
  function Checksum(lines: seq<string>, p: Pattern): Result<int, Error> {
    Total(lines, ValueOf(p))
  }

  predicate HasValue(line: string, p: Pattern) {
    CalibrationValue(line, p).Some?
  }

  /** The sum is a number exactly when every line has a value, and then it is not negative;
      otherwise it is the error for the first line without one. */
  lemma {:induction false} TotalOutcome(lines: seq<string>, value: string -> Option<nat>)
    ensures Total(lines, value).Ok? <==> forall i :: 0 <= i < |lines| ==> value(lines[i]).Some?
    ensures Total(lines, value).Ok? ==> Total(lines, value).value >= 0
    ensures Total(lines, value).Err? ==>
      exists i :: 0 <= i < |lines| && value(lines[i]).None?
                  && Total(lines, value).error == NoCalibrationValues(lines[i])
                  && forall j :: 0 <= j < i ==> value(lines[j]).Some?
  {
    if lines != [] {
      var front, line := lines[..|lines| - 1], lines[|lines| - 1];
      TotalOutcome(front, value);
      assert forall i :: 0 <= i < |front| ==> front[i] == lines[i];
      if Total(front, value).Err? {
        var i :| 0 <= i < |front| && value(front[i]).None?
          && Total(front, value).error == NoCalibrationValues(front[i])
          && forall j :: 0 <= j < i ==> value(front[j]).Some?;
        assert Total(lines, value) == Total(front, value);
        assert lines[i] == front[i];
      } else if value(line).None? {
        assert Total(lines, value) == Err(NoCalibrationValues(lines[|lines| - 1]));
      }
    }
  }

  /** The checksum is a number exactly when every line has a calibration value, and then
      it is not negative; otherwise it is the error for the first line without one. */
  lemma {:induction false} ChecksumOutcome(lines: seq<string>, p: Pattern)
    ensures Checksum(lines, p).Ok? <==> forall i :: 0 <= i < |lines| ==> HasValue(lines[i], p)
    ensures Checksum(lines, p).Ok? ==> Checksum(lines, p).value >= 0
    ensures Checksum(lines, p).Err? ==>
      exists i :: 0 <= i < |lines| && !HasValue(lines[i], p)
                  && Checksum(lines, p).error == NoCalibrationValues(lines[i])
                  && forall j :: 0 <= j < i ==> HasValue(lines[j], p)
  {
    TotalOutcome(lines, ValueOf(p));
  }

  /** The sum follows input order: appending a line adds its value, or fails on it. */
  lemma TotalAppend(lines: seq<string>, line: string, value: string -> Option<nat>)
    ensures Total(lines + [line], value) ==
      match Total(lines, value)
      case Err(e) => Err(e)
      case Ok(sum) =>
        (match value(line)
         case None => Err(NoCalibrationValues(line))
         case Some(v) => Ok(sum + v))
  {
    assert (lines + [line])[..|lines + [line]| - 1] == lines;
  }

  /** The sum of the lines up to and including line i extends the sum of those before it. */
  lemma PrefixStep(lines: seq<string>, i: nat, value: string -> Option<nat>)
    requires i < |lines|
    ensures Total(lines[..i + 1], value) == Total(lines[..i] + [lines[i]], value)
  {
    assert lines[..i] + [lines[i]] == lines[..i + 1];
  }

  /** Once a line without a value has been read, later lines change nothing. */
  lemma {:induction false} ErrorPersists(lines: seq<string>, n: nat, value: string -> Option<nat>)
    requires n <= |lines| && Total(lines[..n], value).Err?
    ensures Total(lines, value) == Total(lines[..n], value)
    decreases |lines| - n
  {
    if n < |lines| {
      PrefixStep(lines, n, value);
      TotalAppend(lines[..n], lines[n], value);
      ErrorPersists(lines, n + 1, value);
    } else {
      assert lines[..n] == lines;
    }
  }

  /** Line i either adds its value to the sum of the lines before it, or decides the sum of
      all lines as the error for it. */
  lemma ChecksumLine(lines: seq<string>, i: nat, value: string -> Option<nat>, sum: int, v: Option<nat>)
    requires i < |lines| && Total(lines[..i], value) == Ok(sum) && v == value(lines[i])
    ensures v.Some? ==> Total(lines[..i + 1], value) == Ok(sum + v.value)
    ensures v.None? ==> Total(lines, value) == Err(NoCalibrationValues(lines[i]))
  {
    PrefixStep(lines, i, value);
    TotalAppend(lines[..i], lines[i], value);
    if v.None? {
      ErrorPersists(lines, i + 1, value);
    }
  }

  /** Positions from..to-1 start no match, so the matches from `from` are those from `to`. */
  lemma {:induction false} SkipNoMatch(line: string, from: nat, to: nat, alts: seq<string>)
    requires from <= to <= |line|
    requires forall q :: from <= q < to ==> TokenAt(line, q, alts).None?
    ensures TokensFrom(line, from, alts) == TokensFrom(line, to, alts)
    decreases (to as int) - from
  {
    if from < to {
      SkipNoMatch(line, from + 1, to, alts);
    }
  }

  /** `matcher.find(from)`: the start of the first match at or after position `from`. */
  method Find(line: string, from: nat, alts: seq<string>) returns (start: Option<nat>)
    requires from <= |line|
    ensures start.Some? ==> from <= start.value < |line| && TokenAt(line, start.value, alts).Some?
    ensures start.Some? ==> forall q :: from <= q < start.value ==> TokenAt(line, q, alts).None?
    ensures start.None? ==> forall q :: from <= q < |line| ==> TokenAt(line, q, alts).None?
  {
    var i := from;
    while i < |line|
      invariant from <= i <= |line|
      invariant forall q :: from <= q < i ==> TokenAt(line, q, alts).None?
    {
      if TokenAt(line, i, alts).Some? {
        return Some(i);
      }
      i := i + 1;
    }
    return None;
  }

  /** The inner `while (matcher.find(...))` loop: it keeps the first and the last match. */
  method ScanLine(line: string, alts: seq<string>) returns (first: Option<string>, last: Option<string>)
    ensures first.None? <==> TokensFrom(line, 0, alts) == []
    ensures last.None? <==> TokensFrom(line, 0, alts) == []
    ensures first.Some? ==> first.value == Text(TokensFrom(line, 0, alts)[0], alts)
    ensures last.Some? ==> last.value == Text(TokensFrom(line, 0, alts)[|TokensFrom(line, 0, alts)| - 1], alts)
  {
    first, last := None, None;
    var matchIndex := 0;
    ghost var seen: seq<Token> := [];
    while true
      invariant matchIndex <= |line|
      invariant TokensFrom(line, 0, alts) == seen + TokensFrom(line, matchIndex, alts)
      invariant first.None? <==> seen == []
      invariant last.None? <==> seen == []
      invariant first.Some? ==> first.value == Text(seen[0], alts)
      invariant last.Some? ==> last.value == Text(seen[|seen| - 1], alts)
      decreases |line| - matchIndex
    {
      var found, next := NextMatch(line, matchIndex, alts);
      if found.None? {
        assert seen == TokensFrom(line, 0, alts);
        break;
      }
      var token := found.value;
      var current := Text(token, alts);
      matchIndex := next;
      if first.None? {
        first := Some(current);
      }
      last := Some(current);
      seen := seen + [token];
    }
  }

  /** One `matcher.find(from)` of the loop: the next match and the position after its start,
      or None when no match is left. */
  method NextMatch(line: string, from: nat, alts: seq<string>) returns (found: Option<Token>, next: nat)
    requires from <= |line|
    ensures found.None? ==> TokensFrom(line, from, alts) == []
    ensures found.Some? ==> from < next <= |line| && ValidToken(found.value, alts)
    ensures found.Some? ==> TokensFrom(line, from, alts) == [found.value] + TokensFrom(line, next, alts)
  {
    var start := Find(line, from, alts);
    if start.None? {
      SkipNoMatch(line, from, |line|, alts);
      return None, from;
    }
    var s := start.value;
    SkipNoMatch(line, from, s, alts);
    found, next := TokenAt(line, s, alts), s + 1;
  }

  /** The body of the loop over lines: the value of the first and the last token of one line,
      or None where the source throws. */
  method LineValue(line: string, p: Pattern) returns (v: Option<nat>)
    ensures v == CalibrationValue(line, p)
  {
    var first, last := ScanLine(line, Alternatives(p));
    if first.None? || last.None? {
      return None;
    }
    ghost var ts := TokensFrom(line, 0, Alternatives(p));
    var n := ParsePair(first.value, last.value, ts[0], ts[|ts| - 1], p);
    v := Some(n);
  }

  /** `Integer.parseInt(translateLiteralNumber(first).concat(translateLiteralNumber(last)))`
      on the texts of tokens a and b. */
  method ParsePair(first: string, last: string, ghost a: Token, ghost b: Token, p: Pattern) returns (n: nat)
    requires ValidToken(a, Alternatives(p)) && ValidToken(b, Alternatives(p))
    requires first == Text(a, Alternatives(p)) && last == Text(b, Alternatives(p))
    ensures n == 10 * TokenDigit(a) + TokenDigit(b)
  {
    ParsedPair(a, b, p);
    n := ParseNat(Translate(first) + Translate(last));
  }

  /** The calibration value checksum of all lines, or the error for the first line that has
      no digit token (the exception aborts the loop, so nothing after it is added). */
  method CalibrationChecksum(lines: seq<string>, p: Pattern) returns (r: Result<int, Error>)
    ensures r == Checksum(lines, p)
  {
    var checksum := 0;
    for i := 0 to |lines|
      invariant Checksum(lines[..i], p) == Ok(checksum)
    {
      var next := AddLine(lines, i, p, checksum);
      if next.Err? {
        return next;
      }
      checksum := next.value;
    }
    assert lines[..|lines|] == lines;
    r := Ok(checksum);
  }

  /** One pass of the loop over lines: the checksum after line i, or the exception for it. */
  method AddLine(lines: seq<string>, i: nat, p: Pattern, checksum: int) returns (r: Result<int, Error>)
    requires i < |lines| && Checksum(lines[..i], p) == Ok(checksum)
    ensures r.Ok? ==> Checksum(lines[..i + 1], p) == r
    ensures r.Err? ==> Checksum(lines, p) == r
  {
    var v := LineValue(lines[i], p);
    ChecksumLine(lines, i, ValueOf(p), checksum, v);
    if v.None? {
      return Err(NoCalibrationValues(lines[i]));
    }
    r := Ok(checksum + v.value);
  }

  /** No token starts at position i when it holds no digit and every alternative either starts
      with another letter or would run past the end of the line. */
  lemma NoTokenAt(line: string, i: nat, alts: seq<string>)
    requires i < |line| && !IsDigit(line[i])
    requires forall j :: 0 <= j < |alts| ==> |alts[j]| > 0 && (alts[j][0] != line[i] || i + |alts[j]| > |line|)
    ensures TokenAt(line, i, alts) == None
  {
    forall j | 0 <= j < |alts|
      ensures !OccursAt(alts[j], line, i)
    {
      if i + |alts[j]| <= |line| {
        assert line[i..i + |alts[j]|][0] == line[i];
      }
    }
  }

  /** No alternative starts at positions 3 .. 6 of "oneight". */
  lemma OneightTail()
    ensures TokensFrom("oneight", 3, Alternatives(DigitsAndWords)) == []
  {
    var line, alts := "oneight", Alternatives(DigitsAndWords);
    NoTokenAt(line, 6, alts);
    assert TokensFrom(line, 6, alts) == [];
    NoTokenAt(line, 5, alts);
    assert TokensFrom(line, 5, alts) == [];
    NoTokenAt(line, 4, alts);
    assert TokensFrom(line, 4, alts) == [];
    NoTokenAt(line, 3, alts);
  }

  /** "eight" is the only alternative at position 2 of "oneight", and none starts at 1. */
  lemma OneightMiddle()
    ensures TokenAt("oneight", 2, Alternatives(DigitsAndWords)) == Some(Spelled(7))
    ensures TokenAt("oneight", 1, Alternatives(DigitsAndWords)) == None
  {
    var line, alts := "oneight", Alternatives(DigitsAndWords);
    forall j | 0 <= j < 7 ensures !OccursAt(alts[j], line, 2) {
      assert alts[j][0] != 'e';
    }
    assert OccursAt(alts[7], line, 2);
    forall j | 0 <= j < |alts| ensures !OccursAt(alts[j], line, 1) {
      assert alts[j][0] != 'n' || alts[j][1] != 'e';
    }
  }

  /** In "oneight" both names are found, so the last token is "eight" and the value is 18. */
  lemma OverlappingNames()
    ensures Tokens("oneight", DigitsAndWords) == [Spelled(0), Spelled(7)]
    ensures CalibrationValue("oneight", DigitsAndWords) == Some(18)
  {
    var line, alts := "oneight", Alternatives(DigitsAndWords);
    OneightTail();
    OneightMiddle();
    assert TokensFrom(line, 2, alts) == [Spelled(7)];
    assert TokensFrom(line, 1, alts) == [Spelled(7)];
    assert OccursAt(alts[0], line, 0);
    assert TokenAt(line, 0, alts) == Some(Spelled(0));
  }
}
