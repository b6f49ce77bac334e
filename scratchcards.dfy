/** 2023 day 4, "Scratchcards": each card lists winning numbers and the numbers the player
    has. A card with m matches scores 2^(m-1) points (0 for none), and wins one copy of each
    of the next m cards per copy of itself; the answer counts all cards and copies. */
module Scratchcards {
  import opened Wrappers

  /** A card, as the two lists of number tokens on either side of the bar. */
  datatype Card = Card(winning: seq<string>, mine: seq<string>)

  /** `Set.of` refuses a list that holds the same token twice. */
  datatype Error<T> = DuplicateNumber(number: T)

  /** `Set.of`: the set of the tokens, or an error for the first token that repeats an
      earlier one. */
  function SetOf<T(==)>(xs: seq<T>): Result<set<T>, Error<T>> {
    if xs == [] then Ok({})
    else
      match SetOf(xs[..|xs| - 1])
      case Err(e) => Err(e)
      case Ok(s) =>
        if xs[|xs| - 1] in s then Err(DuplicateNumber(xs[|xs| - 1])) else Ok(s + {xs[|xs| - 1]})
  }

  predicate Distinct<T(==)>(xs: seq<T>) {
    forall i, j :: 0 <= i < j < |xs| ==> xs[i] != xs[j]
  }

  function Elements<T(==)>(xs: seq<T>): set<T> {
    set x | x in xs
  }

  lemma DistinctSnoc<T>(xs: seq<T>)
    requires xs != []
    ensures Distinct(xs) <==> Distinct(xs[..|xs| - 1]) && xs[|xs| - 1] !in xs[..|xs| - 1]
  {
    var init, last := xs[..|xs| - 1], xs[|xs| - 1];
    if Distinct(xs) {
      forall i, j | 0 <= i < j < |init|
        ensures init[i] != init[j]
      {
        assert init[i] == xs[i] && init[j] == xs[j];
      }
    }
    if Distinct(init) && last !in init {
      forall i, j | 0 <= i < j < |xs|
        ensures xs[i] != xs[j]
      {
        if j < |xs| - 1 {
          assert xs[i] == init[i] && xs[j] == init[j];
        } else {
          assert xs[i] == init[i] && init[i] in init;
        }
      }
    }
  }
  lemma ElementsSnoc<T>(xs: seq<T>)
    requires xs != []
    ensures Elements(xs) == Elements(xs[..|xs| - 1]) + {xs[|xs| - 1]}
    ensures xs[|xs| - 1] in Elements(xs[..|xs| - 1]) <==> xs[|xs| - 1] in xs[..|xs| - 1]
  {
    assert xs == xs[..|xs| - 1] + [xs[|xs| - 1]];
  }

  /** `Set.of` succeeds exactly on lists without repetitions, and then holds each token of
      the list and nothing else. */
  lemma {:induction false} SetOfSpec<T>(xs: seq<T>)
    ensures SetOf(xs).Ok? <==> Distinct(xs)
    ensures SetOf(xs).Ok? ==> SetOf(xs).value == Elements(xs) && |SetOf(xs).value| == |xs|
  {
    if xs != [] {
      var init, last := xs[..|xs| - 1], xs[|xs| - 1];
      SetOfSpec(init);
      DistinctSnoc(xs);
      ElementsSnoc(xs);
      if SetOf(init).Ok? {
        var s := SetOf(init).value;
        if last in s {
          assert SetOf(xs).Err?;
        } else {
          assert SetOf(xs) == Ok(s + {last});
          assert |s + {last}| == |s| + 1;
        }
      }
    }
  }

  /** The error names a token that repeats an earlier token of the list. */
  lemma {:induction false} SetOfError<T>(xs: seq<T>)
    requires SetOf(xs).Err?
    ensures exists j :: 0 < j < |xs| && xs[j] == SetOf(xs).error.number && xs[j] in xs[..j]
  {
    var init, last := xs[..|xs| - 1], xs[|xs| - 1];
    if SetOf(init).Ok? {
      SetOfSpec(init);
      ElementsSnoc(xs);
    } else {
      SetOfError(init);
      var j :| 0 < j < |init| && init[j] == SetOf(init).error.number && init[j] in init[..j];
      assert xs[j] == init[j] && xs[..j] == init[..j];
    }
  }

  /** The number of matches of a card: how many of the player's numbers are winning numbers.
      The winning list is read first, so its error takes precedence. */
  function Matches(card: Card): Result<nat, Error<string>> {
    match SetOf(card.winning)
    case Err(e) => Err(e)
    case Ok(winningNumbers) =>
      match SetOf(card.mine)
      case Err(e) => Err(e)
      case Ok(myNumbers) => Ok(|myNumbers * winningNumbers|)
  }

  /** How many entries of xs are in w. */
  function CountIn<T(==)>(xs: seq<T>, w: set<T>): nat {
    if xs == [] then 0 else CountIn(xs[..|xs| - 1], w) + (if xs[|xs| - 1] in w then 1 else 0)
  }

  /** The matches of a valid card are the positions of the player's list that hold a winning
      number, and there are no more of them than numbers on either side. */
  lemma MatchesSpec(card: Card)
    requires Distinct(card.winning) && Distinct(card.mine)
    ensures Matches(card) == Ok(CountIn(card.mine, Elements(card.winning)))
    ensures Matches(card).value <= |card.mine| && Matches(card).value <= |card.winning|
  {
    SetOfSpec(card.winning);
    SetOfSpec(card.mine);
    var w := Elements(card.winning);
    CountInIntersection(card.mine, w);
    assert Elements(card.mine) * w <= w;
    assert Elements(card.mine) * w <= Elements(card.mine);
    SubsetCard(Elements(card.mine) * w, w);
    SubsetCard(Elements(card.mine) * w, Elements(card.mine));
  }

  lemma SubsetCard<T>(a: set<T>, b: set<T>)
    requires a <= b
    ensures |a| <= |b|
  {
    assert b == a + (b - a);
  }

  lemma {:induction false} CountInIntersection<T>(xs: seq<T>, w: set<T>)
    requires Distinct(xs)
    ensures |Elements(xs) * w| == CountIn(xs, w)
  {
    if xs != [] {
      var init, last := xs[..|xs| - 1], xs[|xs| - 1];
      DistinctSnoc(xs);
      ElementsSnoc(xs);
      CountInIntersection(init, w);
      if last in w {
        assert Elements(xs) * w == Elements(init) * w + {last};
      } else {
        assert Elements(xs) * w == Elements(init) * w;
      }
    }
  }

  function Pow2(n: nat): (p: nat)
    ensures p >= 1
  {
    if n == 0 then 1 else 2 * Pow2(n - 1)
  }

  /** `(int) Math.pow(2, matches - 1)`: 2^-1 truncates to 0. */
  function Points(matches: nat): (p: nat)
    ensures p == 0 <==> matches == 0
    ensures matches > 0 ==> 2 * p == Pow2(matches)
  {
    if matches == 0 then 0 else Pow2(matches - 1)
  }

  /** One match is worth one point, and each further match doubles the points. */
  lemma PointsDouble(m: nat)
    ensures Points(0) == 0 && Points(1) == 1
    ensures m >= 1 ==> Points(m + 1) == 2 * Points(m)
  {
  }

  /** The matches of every card, or the first card's error. */
  function MatchCounts(cards: seq<Card>): (r: Result<seq<nat>, Error<string>>)
    ensures r.Ok? ==> |r.value| == |cards|
  {
    if cards == [] then Ok([])
    else
      match MatchCounts(cards[..|cards| - 1])
      case Err(e) => Err(e)
      case Ok(ms) =>
        match Matches(cards[|cards| - 1])
        case Err(e) => Err(e)
        case Ok(m) => Ok(ms + [m])
  }

  lemma {:induction false} MatchCountsErrorPersists(cards: seq<Card>, n: nat)
    requires n <= |cards| && MatchCounts(cards[..n]).Err?
    ensures MatchCounts(cards) == MatchCounts(cards[..n])
    decreases |cards| - n
  {
    if n < |cards| {
      assert cards[..n + 1][..n] == cards[..n];
      MatchCountsErrorPersists(cards, n + 1);
    } else {
      assert cards[..n] == cards;
    }
  }

  function PointSum(ms: seq<nat>): nat {
    if ms == [] then 0 else PointSum(ms[..|ms| - 1]) + Points(ms[|ms| - 1])
  }

  /** `copies.getOrDefault(i, 0)`. */
  function Get(copies: map<int, nat>, i: int): nat {
    if i in copies then copies[i] else 0
  }

  /** The integers lo .. hi-1. */
  function Interval(lo: int, hi: int): (r: set<int>)
    ensures forall i :: i in r <==> lo <= i < hi
    decreases hi - lo
  {
    if hi <= lo then {} else Interval(lo, hi - 1) + {hi - 1}
  }

  /** The counters lo .. hi-1 each increased by n, created at 0 where missing. */
  function AddRange(copies: map<int, nat>, lo: int, hi: int, n: nat): map<int, nat>
    decreases hi - lo
  {
    if hi <= lo then copies
    else
      var r := AddRange(copies, lo, hi - 1, n);
      r[hi - 1 := Get(r, hi - 1) + n]
  }

  /** Each counter in lo .. hi-1 is n higher, every other counter is unchanged, and only
      the counters of the range are added. */
  lemma {:induction false} AddRangeGet(copies: map<int, nat>, lo: int, hi: int, n: nat, i: int)
    ensures Get(AddRange(copies, lo, hi, n), i) == Get(copies, i) + (if lo <= i < hi then n else 0)
    ensures i in AddRange(copies, lo, hi, n) <==> i in copies || lo <= i < hi
    decreases hi - lo
  {
    if lo < hi {
      AddRangeGet(copies, lo, hi - 1, n, i);
    }
  }

  /** Processing card k with m matches: one more copy of card k (the original), then every
      copy of card k wins a copy of each of the cards k+1 .. k+m. */
  function Step(copies: map<int, nat>, k: int, m: nat): map<int, nat> {
    var own := Get(copies, k) + 1;
    AddRange(copies[k := own], k + 1, k + 1 + m, own)
  }

  /** Card k gains exactly one counter, each of cards k+1 .. k+m gains the new counter of
      card k, and every other counter keeps its value. */
  lemma StepFrame(copies: map<int, nat>, k: int, m: nat, i: int)
    ensures Get(Step(copies, k, m), k) == Get(copies, k) + 1
    ensures k < i <= k + m ==> Get(Step(copies, k, m), i) == Get(copies, i) + Get(copies, k) + 1
    ensures (i < k || k + m < i) ==> Get(Step(copies, k, m), i) == Get(copies, i)
    ensures i in Step(copies, k, m) <==> i in copies || k <= i <= k + m
  {
    var own := Get(copies, k) + 1;
    AddRangeGet(copies[k := own], k + 1, k + 1 + m, own, i);
    AddRangeGet(copies[k := own], k + 1, k + 1 + m, own, k);
  }

  /** The counters after processing the cards with the given matches, in order. */
  function Copies(ms: seq<nat>): map<int, nat> {
    if ms == [] then map[] else Step(Copies(ms[..|ms| - 1]), |ms| - 1, ms[|ms| - 1])
  }

  function Max(a: int, b: int): int {
    if a < b then b else a
  }

  /** One past the last card that has a counter. */
  function Top(ms: seq<nat>): nat {
    if ms == [] then 0 else Max(Top(ms[..|ms| - 1]), |ms| + ms[|ms| - 1])
  }

  function Range(n: int): set<int> {
    Interval(0, n)
  }

  /** The counters are those of cards 0 .. Top(ms)-1, with no gap. */
  lemma {:induction false} CopiesKeys(ms: seq<nat>)
    ensures Copies(ms).Keys == Range(Top(ms))
    ensures |ms| <= Top(ms)
  {
    if ms != [] {
      var init := ms[..|ms| - 1];
      CopiesKeys(init);
      var k, m := |ms| - 1, ms[|ms| - 1];
      forall i
        ensures i in Copies(ms) <==> 0 <= i < Top(ms)
      {
        StepFrame(Copies(init), k, m, i);
      }
    }
  }

  /** Every processed card ends with at least one copy, and a card's counter no longer
      changes once the cards up to it have been processed. */
  lemma {:induction false} CopiesAtLeastOne(ms: seq<nat>, k: nat)
    requires k < |ms|
    ensures Get(Copies(ms), k) == Get(Copies(ms[..k + 1]), k) >= 1
  {
    var init := ms[..|ms| - 1];
    StepFrame(Copies(init), |ms| - 1, ms[|ms| - 1], k);
    if k < |ms| - 1 {
      CopiesAtLeastOne(init, k);
      assert init[..k + 1] == ms[..k + 1];
    } else {
      assert ms[..k + 1] == ms;
    }
  }

  /** The sum of the counters of cards 0 .. n-1. */
  function RangeSum(copies: map<int, nat>, n: nat): nat {
    if n == 0 then 0 else RangeSum(copies, n - 1) + Get(copies, n - 1)
  }

  /** Setting one counter changes the sum by the difference. */
  lemma {:induction false} RangeSumUpdate(copies: map<int, nat>, i: nat, x: nat, n: nat)
    ensures RangeSum(copies[i := x], n) == RangeSum(copies, n) + (if i < n then x - Get(copies, i) else 0)
  {
    if n > 0 {
      RangeSumUpdate(copies, i, x, n - 1);
    }
  }

  lemma MulStep(m: nat, v: nat)
    requires m > 0
    ensures m * v == (m - 1) * v + v
  {
  }

  /** Adding v to m counters inside the summed range adds m * v to the sum. */
  lemma {:induction false} AddRangeSum(copies: map<int, nat>, lo: nat, m: nat, v: nat, n: nat)
    requires lo + m <= n
    ensures RangeSum(AddRange(copies, lo, lo + m, v), n) == RangeSum(copies, n) + m * v
  {
    if m > 0 {
      var i := lo + m - 1;
      var before := AddRange(copies, lo, i, v);
      AddRangeSum(copies, lo, m - 1, v, n);
      RangeSumUpdate(before, i, Get(before, i) + v, n);
      MulStep(m, v);
    }
  }

  /** Processing card k adds one for the card itself and its new counter for each of the m
      cards after it, as long as the sum covers them. */
  lemma StepSum(copies: map<int, nat>, k: nat, m: nat, n: nat)
    requires k + 1 + m <= n
    ensures RangeSum(Step(copies, k, m), n) == RangeSum(copies, n) + 1 + m * (Get(copies, k) + 1)
  {
    var own := Get(copies, k) + 1;
    RangeSumUpdate(copies, k, own, n);
    AddRangeSum(copies[k := own], k + 1, m, own, n);
  }

  /** Counters past the last key add nothing. */
  lemma {:induction false} RangeSumPastKeys(copies: map<int, nat>, t: nat, n: nat)
    requires copies.Keys <= Range(t) && t <= n
    ensures RangeSum(copies, n) == RangeSum(copies, t)
  {
    if t < n {
      RangeSumPastKeys(copies, t, n - 1);
      assert n - 1 !in Range(t);
    }
  }

  /** Every card counts once, plus once for each copy it won: card k, held c_k times and
      having m_k matches, adds 1 + m_k * c_k to the total. */
  function Shares(ms: seq<nat>, n: nat, copies: map<int, nat>): nat
    requires n <= |ms|
  {
    if n == 0 then 0 else Shares(ms, n - 1, copies) + 1 + ms[n - 1] * Get(copies, n - 1)
  }

  lemma {:induction false} SharesFrame(ms: seq<nat>, ms': seq<nat>, n: nat, a: map<int, nat>, b: map<int, nat>)
    requires n <= |ms| && n <= |ms'| && ms[..n] == ms'[..n]
    requires forall k :: 0 <= k < n ==> Get(a, k) == Get(b, k)
    ensures Shares(ms, n, a) == Shares(ms', n, b)
  {
    if n > 0 {
      assert ms[n - 1] == ms[..n][n - 1] == ms'[n - 1];
      assert ms[..n - 1] == ms'[..n - 1];
      SharesFrame(ms, ms', n - 1, a, b);
    }
  }

  /** The total number of scratchcards is the number of cards plus, for each card, its
      matches times its final number of copies. */
  lemma {:induction false} TotalCopies(ms: seq<nat>)
    ensures RangeSum(Copies(ms), Top(ms)) == Shares(ms, |ms|, Copies(ms))
  {
    if ms != [] {
      var init, k, m := ms[..|ms| - 1], |ms| - 1, ms[|ms| - 1];
      var c := Copies(init);
      TotalCopies(init);
      CopiesKeys(init);
      StepSum(c, k, m, Top(ms));
      RangeSumPastKeys(c, Top(init), Top(ms));
      forall j | 0 <= j < k
        ensures Get(c, j) == Get(Copies(ms), j)
      {
        StepFrame(c, k, m, j);
      }
      assert init[..k] == ms[..k];
      SharesFrame(init, ms, k, c, Copies(ms));
      StepFrame(c, k, m, k);
    }
  }

  /** The sum of the counters with the given keys, in no particular order. */
  ghost function SumOver(copies: map<int, nat>, keys: set<int>): nat
    requires keys <= copies.Keys
  {
    if keys == {} then 0
    else
      NonEmpty(keys);
      var k :| k in keys;
      copies[k] + SumOver(copies, keys - {k})
  }

  lemma NonEmpty(s: set<int>)
    requires s != {}
    ensures exists x :: x in s
  {
    if forall x :: x !in s {
      assert false;
    }
  }

  /** The sum does not depend on which key is taken first. */
  lemma SumOverRemove(copies: map<int, nat>, keys: set<int>, k: int)
    requires keys <= copies.Keys && k in keys
    ensures SumOver(copies, keys) == copies[k] + SumOver(copies, keys - {k})
    decreases |keys|
  {
    var j :| j in keys && SumOver(copies, keys) == copies[j] + SumOver(copies, keys - {j});
    if j != k {
      SumOverRemove(copies, keys - {j}, k);
      SumOverRemove(copies, keys - {k}, j);
      assert keys - {j} - {k} == keys - {k} - {j};
    }
  }

  /** Summed over contiguous keys, the counters give the range sum. */
  lemma {:induction false} SumOverRange(copies: map<int, nat>, n: nat)
    requires Range(n) <= copies.Keys
    ensures SumOver(copies, Range(n)) == RangeSum(copies, n)
  {
    if n > 0 {
      SumOverRemove(copies, Range(n), n - 1);
      assert Range(n) - {n - 1} == Range(n - 1);
      SumOverRange(copies, n - 1);
    }
  }

  /** The two answers: the card point sum and the number of scratchcards (the sum of all
      copy counters). */
  ghost function Scores(cards: seq<Card>): Result<(nat, nat), Error<string>> {
    match MatchCounts(cards)
    case Err(e) => Err(e)
    case Ok(ms) => Ok((PointSum(ms), SumOver(Copies(ms), Copies(ms).Keys)))
  }

  /** The scratchcard total is the number of cards plus each card's matches times copies. */
  lemma ScoresTotal(cards: seq<Card>)
    requires MatchCounts(cards).Ok?
    ensures var ms := MatchCounts(cards).value;
      Scores(cards).Ok? && Scores(cards).value.1 == Shares(ms, |ms|, Copies(ms)) >= |cards|
  {
    var ms := MatchCounts(cards).value;
    CopiesKeys(ms);
    SumOverRange(Copies(ms), Top(ms));
    TotalCopies(ms);
    SharesAtLeast(ms, |ms|, Copies(ms));
  }

  lemma {:induction false} SharesAtLeast(ms: seq<nat>, n: nat, copies: map<int, nat>)
    requires n <= |ms|
    ensures Shares(ms, n, copies) >= n
  {
    if n > 0 {
      SharesAtLeast(ms, n - 1, copies);
    }
  }

  /** Card k's copies go to cards k+1 .. k+m, one addition at a time. */
  method Propagate(copies: map<int, nat>, currentCard: int, matches: nat) returns (r: map<int, nat>)
    requires currentCard in copies
    ensures r == AddRange(copies, currentCard + 1, currentCard + 1 + matches, copies[currentCard])
  {
    r := copies;
    var i := currentCard + 1;
    while i <= currentCard + matches
      invariant currentCard + 1 <= i <= currentCard + 1 + matches
      invariant r == AddRange(copies, currentCard + 1, i, copies[currentCard])
    {
      AddRangeGet(copies, currentCard + 1, i, copies[currentCard], currentCard);
      r := r[i := Get(r, i) + r[currentCard]];
      i := i + 1;
    }
  }

  /** The body of the card loop that updates the counters. */
  method ProcessCard(copies: map<int, nat>, currentCard: int, matches: nat) returns (r: map<int, nat>)
    ensures r == Step(copies, currentCard, matches)
  {
    r := copies[currentCard := Get(copies, currentCard) + 1];
    r := Propagate(r, currentCard, matches);
  }

  lemma MatchCountsNext(cards: seq<Card>, n: nat)
    requires n < |cards| && MatchCounts(cards[..n]).Ok?
    ensures MatchCounts(cards[..n + 1]) ==
      match Matches(cards[n])
      case Err(e) => Err(e)
      case Ok(m) => Ok(MatchCounts(cards[..n]).value + [m])
  {
    assert cards[..n + 1][..n] == cards[..n];
  }

  lemma Snoc(ms: seq<nat>, m: nat)
    ensures PointSum(ms + [m]) == PointSum(ms) + Points(m)
    ensures Copies(ms + [m]) == Step(Copies(ms), |ms|, m)
  {
    assert (ms + [m])[..|ms|] == ms;
  }

  /** `copies.values().stream().sum()`: the counters added up in the map's own order. */
  method SumValues(copies: map<int, nat>) returns (total: nat)
    ensures total == SumOver(copies, copies.Keys)
  {
    total := 0;
    var keys := copies.Keys;
    while keys != {}
      invariant keys <= copies.Keys
      invariant total + SumOver(copies, keys) == SumOver(copies, copies.Keys)
      decreases |keys|
    {
      NonEmpty(keys);
      var k :| k in keys;
      SumOverRemove(copies, keys, k);
      total := total + copies[k];
      keys := keys - {k};
    }
  }

  /** The test's loop over the cards, then the sum over the copy counters. */
  method Day4(cards: seq<Card>) returns (r: Result<(nat, nat), Error<string>>)
    ensures r == Scores(cards)
  {
    var cardPointSum := 0;
    var copies: map<int, nat> := map[];
    var currentCard := 0;
    ghost var ms: seq<nat> := [];
    while currentCard < |cards|
      invariant currentCard <= |cards| && |ms| == currentCard
      invariant MatchCounts(cards[..currentCard]) == Ok(ms)
      invariant cardPointSum == PointSum(ms)
      invariant copies == Copies(ms)
    {
      MatchCountsNext(cards, currentCard);
      var matches := Matches(cards[currentCard]);
      if matches.Err? {
        MatchCountsErrorPersists(cards, currentCard + 1);
        return Err(matches.error);
      }
      cardPointSum := cardPointSum + Points(matches.value);
      copies := ProcessCard(copies, currentCard, matches.value);
      Snoc(ms, matches.value);
      ms := ms + [matches.value];
      currentCard := currentCard + 1;
    }
    assert cards[..currentCard] == cards;
    var total := SumValues(copies);
    r := Ok((cardPointSum, total));
  }
}
