/** 2024 day 1, "Historian Hysteria": two columns of location ids. The distance pairs the
    smallest left id with the smallest right id, the second smallest with the second smallest
    and so on, and adds the absolute differences; the similarity score adds every left id
    times the number of times it occurs in the right column. */
module LocationLists {

  /** One input line: the left and the right id. */
  datatype Pair = Pair(left: int, right: int)

  function Lefts(pairs: seq<Pair>): (xs: seq<int>)
    ensures |xs| == |pairs| && forall i :: 0 <= i < |pairs| ==> xs[i] == pairs[i].left
  {
    seq(|pairs|, i requires 0 <= i < |pairs| => pairs[i].left)
  }

  function Rights(pairs: seq<Pair>): (xs: seq<int>)
    ensures |xs| == |pairs| && forall i :: 0 <= i < |pairs| ==> xs[i] == pairs[i].right
  {
    seq(|pairs|, i requires 0 <= i < |pairs| => pairs[i].right)
  }

  // ---------------------------------------------------------------------------------------
  // Sorting

  predicate Ascending(xs: seq<int>) {
    forall i, j :: 0 <= i < j < |xs| ==> xs[i] <= xs[j]
  }

  function Insert(x: int, xs: seq<int>): (r: seq<int>)
    ensures |r| == |xs| + 1
  {
    if xs == [] || x <= xs[0] then [x] + xs else [xs[0]] + Insert(x, xs[1..])
  }

  /** `stream().sorted()` on a list of integers: the ascending arrangement of its elements. */
  function Sort(xs: seq<int>): (r: seq<int>)
    ensures |r| == |xs|
  {
    if xs == [] then [] else Insert(xs[|xs| - 1], Sort(xs[..|xs| - 1]))
  }

  predicate AtLeast(xs: seq<int>, key: int) {
    forall x :: x in xs ==> key <= x
  }

  lemma AscendingTail(xs: seq<int>)
    requires Ascending(xs) && xs != []
    ensures Ascending(xs[1..]) && AtLeast(xs[1..], xs[0])
  {
    forall i, j | 0 <= i < j < |xs[1..]|
      ensures xs[1..][i] <= xs[1..][j]
    {
      assert xs[1..][i] == xs[i + 1] && xs[1..][j] == xs[j + 1];
    }
    forall x | x in xs[1..]
      ensures xs[0] <= x
    {
      var i :| 0 <= i < |xs[1..]| && xs[1..][i] == x;
      assert xs[i + 1] == x;
    }
  }

  lemma AscendingCons(x: int, t: seq<int>)
    requires Ascending(t) && AtLeast(t, x)
    ensures Ascending([x] + t)
  {
    var s := [x] + t;
    forall i, j | 0 <= i < j < |s|
      ensures s[i] <= s[j]
    {
      assert s[j] == t[j - 1];
      if i > 0 {
        assert s[i] == t[i - 1];
      } else {
        assert s[j] in t;
      }
    }
  }

  lemma AtLeastByMultiset(t: seq<int>, s: seq<int>, x: int, key: int)
    requires multiset(t) == multiset(s) + multiset{x}
    requires AtLeast(s, key) && key <= x
    ensures AtLeast(t, key)
  {
    forall y | y in t
      ensures key <= y
    {
      assert y in multiset(t);
      if y != x {
        assert multiset(t)[y] == multiset(s)[y] + multiset{x}[y];
        assert y in multiset(s);
        assert y in s;
      }
    }
  }

  lemma {:induction false} InsertSpec(x: int, xs: seq<int>)
    requires Ascending(xs)
    ensures Ascending(Insert(x, xs))
    ensures multiset(Insert(x, xs)) == multiset(xs) + multiset{x}
  {
    if xs != [] && x > xs[0] {
      var tail := xs[1..];
      AscendingTail(xs);
      InsertSpec(x, tail);
      var t := Insert(x, tail);
      AtLeastByMultiset(t, tail, x, xs[0]);
      AscendingCons(xs[0], t);
      assert xs == [xs[0]] + tail;
    } else if xs != [] {
      forall y | y in xs
        ensures x <= y
      {
        var i :| 0 <= i < |xs| && xs[i] == y;
      }
      AscendingCons(x, xs);
    }
  }

  /** The sorted list is ascending and holds the same elements, as often as the input. */
  lemma {:induction false} SortSpec(xs: seq<int>)
    ensures Ascending(Sort(xs))
    ensures multiset(Sort(xs)) == multiset(xs)
  {
    if xs != [] {
      SortSpec(xs[..|xs| - 1]);
      InsertSpec(xs[|xs| - 1], Sort(xs[..|xs| - 1]));
      assert xs == xs[..|xs| - 1] + [xs[|xs| - 1]];
    }
  }

  /** There is only one ascending arrangement of a multiset, so any correct sort gives the
      list that Sort gives. */
  lemma {:induction false} AscendingUnique(a: seq<int>, b: seq<int>)
    requires Ascending(a) && Ascending(b) && multiset(a) == multiset(b)
    ensures a == b
  {
    if a == [] {
      assert |b| == |multiset(b)| == 0;
    } else {
      assert a[0] in multiset(a);
      HeadIsLeast(b, a[0]);
      assert b[0] in multiset(b);
      HeadIsLeast(a, b[0]);
      assert a[0] == b[0];
      TailMultiset(a);
      TailMultiset(b);
      assert multiset(a[1..]) == multiset(b[1..]);
      AscendingTail(a);
      AscendingTail(b);
      AscendingUnique(a[1..], b[1..]);
      assert a == [a[0]] + a[1..] && b == [b[0]] + b[1..];
    }
  }

  lemma HeadIsLeast(a: seq<int>, x: int)
    requires Ascending(a) && x in multiset(a)
    ensures a != [] && a[0] <= x
  {
    var i :| 0 <= i < |a| && a[i] == x;
  }

  lemma TailMultiset(a: seq<int>)
    requires a != []
    ensures multiset(a[1..]) == multiset(a) - multiset{a[0]}
  {
    assert a == [a[0]] + a[1..];
  }

  /** Sorting depends only on the elements and how often they occur, not on their order. */
  lemma SortOrderFree(xs: seq<int>, ys: seq<int>)
    requires multiset(xs) == multiset(ys)
    ensures Sort(xs) == Sort(ys)
  {
    SortSpec(xs);
    SortSpec(ys);
    AscendingUnique(Sort(xs), Sort(ys));
  }

  // ---------------------------------------------------------------------------------------
  // Part 1: distance

  function Abs(x: int): nat {
    if x < 0 then -x else x
  }

  /** The sum of |xs[i] - ys[i]| over the positions of two lists of equal length. */
  function DistanceSum(xs: seq<int>, ys: seq<int>): (d: int)
    requires |xs| == |ys|
    ensures d >= 0
  {
    if xs == [] then 0
    else DistanceSum(xs[..|xs| - 1], ys[..|ys| - 1]) + Abs(xs[|xs| - 1] - ys[|ys| - 1])
  }

  /** The distance is zero exactly when the two lists agree at every position. */
  lemma {:induction false} DistanceSumZero(xs: seq<int>, ys: seq<int>)
    requires |xs| == |ys|
    ensures DistanceSum(xs, ys) == 0 <==> xs == ys
  {
    if xs != [] {
      var n := |xs| - 1;
      DistanceSumZero(xs[..n], ys[..n]);
      assert xs == xs[..n] + [xs[n]] && ys == ys[..n] + [ys[n]];
    }
  }

  /** Pairing the lists the other way round gives the same distance. */
  lemma {:induction false} DistanceSumSymmetric(xs: seq<int>, ys: seq<int>)
    requires |xs| == |ys|
    ensures DistanceSum(xs, ys) == DistanceSum(ys, xs)
  {
    if xs != [] {
      DistanceSumSymmetric(xs[..|xs| - 1], ys[..|ys| - 1]);
    }
  }

  /** The total distance between the two columns. */
  function Distance(pairs: seq<Pair>): int {
    DistanceSum(Sort(Lefts(pairs)), Sort(Rights(pairs)))
  }

  /** The distance is zero exactly when both columns hold the same ids equally often, and it
      does not depend on the order of either column. */
  lemma DistanceZeroIff(pairs: seq<Pair>)
    ensures Distance(pairs) == 0 <==> multiset(Lefts(pairs)) == multiset(Rights(pairs))
  {
    var ls, rs := Lefts(pairs), Rights(pairs);
    SortSpec(ls);
    SortSpec(rs);
    DistanceSumZero(Sort(ls), Sort(rs));
    if multiset(ls) == multiset(rs) {
      SortOrderFree(ls, rs);
    }
  }

  lemma DistanceOrderFree(pairs: seq<Pair>, others: seq<Pair>)
    requires multiset(Lefts(pairs)) == multiset(Lefts(others))
    requires multiset(Rights(pairs)) == multiset(Rights(others))
    ensures Distance(pairs) == Distance(others)
  {
    SortOrderFree(Lefts(pairs), Lefts(others));
    SortOrderFree(Rights(pairs), Rights(others));
  }

  /** The assertion of the part 1 test, as written: the expected value against itself. */
  predicate AssertionAsWritten(expected: int, absoluteDistance: int) {
    expected == expected
  }

  /** The assertion the test evidently means: the expected value against the computed one. */
  predicate Assertion(expected: int, absoluteDistance: int) {
    expected == absoluteDistance
  }

  /** One pair 3 and 4 has distance 1, yet the assertion as written accepts 0 for it; the
      intended assertion rejects it. */
  lemma WrongExpectedPasses()
    ensures Distance([Pair(3, 4)]) == 1
    ensures AssertionAsWritten(0, Distance([Pair(3, 4)]))
    ensures !Assertion(0, Distance([Pair(3, 4)]))
  {
    assert Lefts([Pair(3, 4)]) == [3] && Rights([Pair(3, 4)]) == [4];
    assert Sort([3]) == [3] && Sort([4]) == [4];
  }

  /** The reading loop of both parts: the left ids and the right ids, in input order. */
  method Columns(pairs: seq<Pair>) returns (list1: seq<int>, list2: seq<int>)
    ensures list1 == Lefts(pairs) && list2 == Rights(pairs)
  {
    list1, list2 := [], [];
    for i := 0 to |pairs|
      invariant |list1| == |list2| == i
      invariant forall k :: 0 <= k < i ==> list1[k] == pairs[k].left && list2[k] == pairs[k].right
    {
      list1 := list1 + [pairs[i].left];
      list2 := list2 + [pairs[i].right];
    }
  }

  /** The `absoluteDistance` loop over the positions of the sorted lists. */
  method SumDistances(sorted1: seq<int>, sorted2: seq<int>) returns (absoluteDistance: int)
    requires |sorted1| == |sorted2|
    ensures absoluteDistance == DistanceSum(sorted1, sorted2)
  {
    absoluteDistance := 0;
    for i := 0 to |sorted1|
      invariant absoluteDistance == DistanceSum(sorted1[..i], sorted2[..i])
    {
      assert sorted1[..i + 1][..i] == sorted1[..i] && sorted2[..i + 1][..i] == sorted2[..i];
      absoluteDistance := absoluteDistance + Abs(sorted1[i] - sorted2[i]);
    }
    assert sorted1[..|sorted1|] == sorted1 && sorted2[..|sorted2|] == sorted2;
  }

  /** `test_day1Part1`: collect the columns, sort them, add the distances of the paired ids;
      the test passes when the expected value is that sum. */
  method Day1Part1(pairs: seq<Pair>, expected: int) returns (absoluteDistance: int, passes: bool)
    ensures absoluteDistance == Distance(pairs)
    ensures passes <==> Assertion(expected, absoluteDistance)
  {
    var list1, list2 := Columns(pairs);
    var sorted1, sorted2 := Sort(list1), Sort(list2);
    absoluteDistance := SumDistances(sorted1, sorted2);
    passes := expected == absoluteDistance;
  }

  // ---------------------------------------------------------------------------------------
  // Part 2: similarity

  function Get(m: map<int, nat>, k: int): nat {
    if k in m then m[k] else 0
  }

  /** The `frequency` map after the right ids xs: `compute` starts a new id at 1 and adds 1 to
      a known one. */
  function Frequencies(xs: seq<int>): map<int, nat> {
    if xs == [] then map[]
    else
      var f := Frequencies(xs[..|xs| - 1]);
      var x := xs[|xs| - 1];
      f[x := Get(f, x) + 1]
  }

  /** Every occurrence of an id is counted once, and only ids that occur are keys. */
  lemma {:induction false} FrequenciesCount(xs: seq<int>)
    ensures forall k :: Get(Frequencies(xs), k) == multiset(xs)[k]
    ensures forall k :: k in Frequencies(xs) <==> k in xs
  {
    if xs != [] {
      var init, x := xs[..|xs| - 1], xs[|xs| - 1];
      FrequenciesCount(init);
      assert xs == init + [x];
      assert multiset(xs) == multiset(init) + multiset{x};
    }
  }

  /** The similarity score as the puzzle states it: each left id times its number of
      occurrences among the right ids. */
  function Similarity(lefts: seq<int>, rights: seq<int>): int {
    if lefts == [] then 0
    else
      var n := lefts[|lefts| - 1];
      Similarity(lefts[..|lefts| - 1], rights) + n * multiset(rights)[n]
  }

  /** `n * frequency.getOrDefault(n, 0)` summed over the numbers, in the stream's order. */
  function Score(numbers: seq<int>, frequency: map<int, nat>): int {
    if numbers == [] then 0
    else
      var n := numbers[|numbers| - 1];
      Score(numbers[..|numbers| - 1], frequency) + n * Get(frequency, n)
  }

  /** Scoring against the frequency map of the right ids is the similarity score. */
  lemma {:induction false} ScoreIsSimilarity(numbers: seq<int>, rights: seq<int>)
    ensures Score(numbers, Frequencies(rights)) == Similarity(numbers, rights)
  {
    if numbers != [] {
      ScoreIsSimilarity(numbers[..|numbers| - 1], rights);
      FrequenciesCount(rights);
    }
  }

  lemma MulSplit(x: int, y: int, c: int, d: int, e: int)
    requires e == (if x == y then 1 else 0)
    ensures x * (c + e) + y * d == x * c + y * (d + e)
  {
    if x == y {
      assert x * (c + 1) == x * c + x;
      assert y * (d + 1) == y * d + y;
    }
  }

  lemma CountSnoc(xs: seq<int>, y: int, x: int)
    ensures multiset(xs + [y])[x] == multiset(xs)[x] + if x == y then 1 else 0
  {
    assert multiset(xs + [y]) == multiset(xs) + multiset{y};
  }

  /** One more right id y adds y once for every left occurrence of it. */
  lemma {:induction false} SimilaritySnocRight(lefts: seq<int>, rights: seq<int>, y: int)
    ensures Similarity(lefts, rights + [y]) == Similarity(lefts, rights) + y * multiset(lefts)[y]
  {
    if lefts != [] {
      var init, x := lefts[..|lefts| - 1], lefts[|lefts| - 1];
      SimilaritySnocRight(init, rights, y);
      assert lefts == init + [x];
      var c, d, e := multiset(rights)[x], multiset(init)[y], if x == y then 1 else 0;
      CountSnoc(rights, y, x);
      CountSnoc(init, x, y);
      assert multiset(rights + [y])[x] == c + e && multiset(lefts)[y] == d + e;
      MulSplit(x, y, c, d, e);
    }
  }

  /** Every id equal on both sides contributes its value once per pair of occurrences, so the
      score does not change when the two columns swap. */
  lemma {:induction false} SimilaritySymmetric(lefts: seq<int>, rights: seq<int>)
    ensures Similarity(lefts, rights) == Similarity(rights, lefts)
  {
    if rights == [] {
      SimilarityEmptyRight(lefts);
    } else {
      var init, y := rights[..|rights| - 1], rights[|rights| - 1];
      SimilaritySymmetric(lefts, init);
      assert rights == init + [y];
      SimilaritySnocRight(lefts, init, y);
    }
  }

  lemma {:induction false} SimilarityEmptyRight(lefts: seq<int>)
    ensures Similarity(lefts, []) == 0
  {
    if lefts != [] {
      SimilarityEmptyRight(lefts[..|lefts| - 1]);
    }
  }

  /** Reordering the right ids leaves every left id's count, hence the score, unchanged. */
  lemma {:induction false} SimilarityRightOrderFree(lefts: seq<int>, rights: seq<int>, others: seq<int>)
    requires multiset(rights) == multiset(others)
    ensures Similarity(lefts, rights) == Similarity(lefts, others)
  {
    if lefts != [] {
      SimilarityRightOrderFree(lefts[..|lefts| - 1], rights, others);
    }
  }

  /** The score depends only on how often each id occurs in each column. */
  lemma SimilarityOrderFree(lefts: seq<int>, rights: seq<int>, lefts': seq<int>, rights': seq<int>)
    requires multiset(lefts) == multiset(lefts') && multiset(rights) == multiset(rights')
    ensures Similarity(lefts, rights) == Similarity(lefts', rights')
  {
    SimilaritySymmetric(lefts, rights);
    SimilarityRightOrderFree(rights, lefts, lefts');
    SimilaritySymmetric(lefts', rights);
    SimilarityRightOrderFree(lefts', rights, rights');
  }

  /** `test_day1Part2`: collect the left ids and the frequency of the right ids in one pass,
      then add each left id times its frequency. */
  method Day1Part2(pairs: seq<Pair>) returns (similarityScore: int)
    ensures similarityScore == Similarity(Lefts(pairs), Rights(pairs))
  {
    var numbers, frequency := CountRights(pairs);
    similarityScore := ScoreNumbers(numbers, frequency);
    ScoreIsSimilarity(numbers, Rights(pairs));
  }

  /** The reading loop of part 2: the left numbers in order, and how often each right number
      occurs. */
  method CountRights(pairs: seq<Pair>) returns (numbers: seq<int>, frequency: map<int, nat>)
    ensures numbers == Lefts(pairs) && frequency == Frequencies(Rights(pairs))
  {
    ghost var rights := Rights(pairs);
    numbers, frequency := [], map[];
    for i := 0 to |pairs|
      invariant |numbers| == i && forall k :: 0 <= k < i ==> numbers[k] == pairs[k].left
      invariant frequency == Frequencies(rights[..i])
    {
      assert rights[..i + 1][..i] == rights[..i];
      numbers := numbers + [pairs[i].left];
      var right := pairs[i].right;
      frequency := frequency[right := if right in frequency then frequency[right] + 1 else 1];
    }
    assert rights[..|pairs|] == rights;
  }

  /** The scoring loop of part 2: each left number times its frequency on the right. */
  method ScoreNumbers(numbers: seq<int>, frequency: map<int, nat>) returns (similarityScore: int)
    ensures similarityScore == Score(numbers, frequency)
  {
    similarityScore := 0;
    for j := 0 to |numbers|
      invariant similarityScore == Score(numbers[..j], frequency)
    {
      assert numbers[..j + 1][..j] == numbers[..j];
      var n := numbers[j];
      similarityScore := similarityScore + n * (if n in frequency then frequency[n] else 0);
    }
    assert numbers[..|numbers|] == numbers;
  }
}
