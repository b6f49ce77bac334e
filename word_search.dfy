/** 2024 day 4, "Ceres Search": a word search over a grid of letters. Part 1 counts every
    reading of "xmas" from an x in one of the eight directions; part 2 counts the a's at the
    centre of two diagonal "mas" (read either way) forming an X. The grid is lower-cased
    when it is read. */
module WordSearch {
  import opened Ascii

  type Grid = seq<seq<char>>

  /** Every row as wide as the first: the search bounds columns by the first row's width. */
  predicate Rectangular(g: Grid) {
    forall r :: 0 <= r < |g| ==> |g[r]| == |g[0]|
  }

  predicate InGrid(g: Grid, row: int, col: int) {
    0 <= row < |g| && 0 <= col < |g[0]|
  }

  /** The grid the tests build: each line lower-cased into a row of characters. */
  function ReadGrid(lines: seq<string>): (g: Grid)
    ensures |g| == |lines|
    ensures forall r :: 0 <= r < |lines| ==> g[r] == LowerString(lines[r])
  {
    if lines == [] then [] else [LowerString(lines[0])] + ReadGrid(lines[1..])
  }

  // ---------------------------------------------------------------------------------------
  // findAdjacent

  /** The word lies in the grid from (row, col), one letter per step of (dRow, dCol). */
  predicate Along(g: Grid, row: int, col: int, word: string, dRow: int, dCol: int)
    requires Rectangular(g)
    decreases |word|
  {
    word == [] ||
    (InGrid(g, row, col) && g[row][col] == word[0] &&
     Along(g, row + dRow, col + dCol, word[1..], dRow, dCol))
  }

  /** What `findAdjacent` answers: a non-empty word lies along the direction. */
  predicate Found(g: Grid, row: int, col: int, word: string, dRow: int, dCol: int)
    requires Rectangular(g)
  {
    |word| > 0 && Along(g, row, col, word, dRow, dCol)
  }

  /** The k-th letter of the word sits at (row + k·dRow, col + k·dCol). */
  predicate LetterAt(g: Grid, row: int, col: int, word: string, dRow: int, dCol: int, k: nat)
    requires Rectangular(g) && k < |word|
  {
    InGrid(g, row + k * dRow, col + k * dCol) && g[row + k * dRow][col + k * dCol] == word[k]
  }

  lemma StepMul(k: int, d: int)
    ensures (k + 1) * d == k * d + d
  {
  }

  /** Letter k+1 of the word from (row, col) is letter k of its tail from the next cell. */
  lemma LetterShift(g: Grid, row: int, col: int, word: string, dRow: int, dCol: int, k: nat)
    requires Rectangular(g) && k + 1 < |word|
    ensures LetterAt(g, row, col, word, dRow, dCol, k + 1) ==
            LetterAt(g, row + dRow, col + dCol, word[1..], dRow, dCol, k)
  {
    StepMul(k, dRow);
    StepMul(k, dCol);
  }

  /** The word lies along the direction exactly when each of its letters sits at its place. */
  lemma {:induction false} AlongIff(g: Grid, row: int, col: int, word: string, dRow: int, dCol: int)
    requires Rectangular(g)
    ensures Along(g, row, col, word, dRow, dCol) <==>
      forall k :: 0 <= k < |word| ==> LetterAt(g, row, col, word, dRow, dCol, k)
    decreases |word|
  {
    if word != [] {
      var rest, r1, c1 := word[1..], row + dRow, col + dCol;
      AlongIff(g, r1, c1, rest, dRow, dCol);
      forall k | 0 <= k < |rest|
        ensures LetterAt(g, row, col, word, dRow, dCol, k + 1) == LetterAt(g, r1, c1, rest, dRow, dCol, k)
      {
        LetterShift(g, row, col, word, dRow, dCol, k);
      }
      assert LetterAt(g, row, col, word, dRow, dCol, 0) <==> InGrid(g, row, col) && g[row][col] == word[0];
      if forall k :: 0 <= k < |word| ==> LetterAt(g, row, col, word, dRow, dCol, k) {
        assert forall k :: 0 <= k < |rest| ==> LetterAt(g, r1, c1, rest, dRow, dCol, k);
      }
      if Along(g, row, col, word, dRow, dCol) {
        forall k | 0 <= k < |word|
          ensures LetterAt(g, row, col, word, dRow, dCol, k)
        {
          if k > 0 {
            assert LetterAt(g, r1, c1, rest, dRow, dCol, k - 1);
          }
        }
      }
    }
  }

  /** `findAdjacent`: walk from the start cell in the direction while inside the grid,
      comparing letter by letter; stop at the first mismatch or when the word is complete. */
  method FindAdjacent(input: Grid, startRow: int, startCol: int, find: string, dRow: int, dCol: int)
    returns (found: bool)
    requires Rectangular(input)
    ensures found <==> Found(input, startRow, startCol, find, dRow, dCol)
  {
    var findIndex := 0;
    found := false;
    var row, col := startRow, startCol;
    while row >= 0 && row < |input| && findIndex < |find| && col >= 0 && col < |input[0]|
      invariant 0 <= findIndex <= |find| && !found
      invariant findIndex < |find| || find == []
      invariant Along(input, startRow, startCol, find, dRow, dCol) <==>
        Along(input, row, col, find[findIndex..], dRow, dCol)
      decreases |find| - findIndex
    {
      ghost var rest := find[findIndex..];
      assert rest[1..] == find[findIndex + 1..];
      assert Along(input, row, col, rest, dRow, dCol) <==>
        input[row][col] == rest[0] && Along(input, row + dRow, col + dCol, rest[1..], dRow, dCol);
      var expected := find[findIndex];
      findIndex := findIndex + 1;
      if input[row][col] == expected {
        if findIndex == |find| {
          found := true;
          break;
        }
      } else {
        break;
      }
      row, col := row + dRow, col + dCol;
    }
  }

  // ---------------------------------------------------------------------------------------
  // Part 1

  /** The eight directions, in the order the test submits them. */
  const Directions: seq<(int, int)> :=
    [(-1, 0), (1, 0), (0, -1), (0, 1), (-1, -1), (-1, 1), (1, -1), (1, 1)]

  /** The number of directions among dirs along which the word is found from (row, col). */
  function Hits(g: Grid, row: int, col: int, word: string, dirs: seq<(int, int)>): (n: nat)
    requires Rectangular(g)
    ensures n <= |dirs|
  {
    if dirs == [] then 0
    else
      var (dRow, dCol) := dirs[|dirs| - 1];
      Hits(g, row, col, word, dirs[..|dirs| - 1]) + if Found(g, row, col, word, dRow, dCol) then 1 else 0
  }

  /** What the cell (row, col) adds in part 1. */
  function XmasAtCell(g: Grid, row: nat, col: nat): nat
    requires Rectangular(g) && row < |g| && col < |g[row]|
  {
    if g[row][col] == 'x' then Hits(g, row, col, "xmas", Directions) else 0
  }

  /** The part 1 count over the first n cells of a row. */
  function RowXmas(g: Grid, row: nat, n: nat): nat
    requires Rectangular(g) && row < |g| && n <= |g[row]|
  {
    if n == 0 then 0 else RowXmas(g, row, n - 1) + XmasAtCell(g, row, n - 1)
  }

  /** The part 1 count over the first m rows. */
  function GridXmas(g: Grid, m: nat): nat
    requires Rectangular(g) && m <= |g|
  {
    if m == 0 then 0 else GridXmas(g, m - 1) + RowXmas(g, m - 1, |g[m - 1]|)
  }

  function RowCount(g: Grid, row: nat, n: nat, letter: char): nat
    requires row < |g| && n <= |g[row]|
  {
    if n == 0 then 0 else RowCount(g, row, n - 1, letter) + if g[row][n - 1] == letter then 1 else 0
  }

  /** The number of cells holding a letter in rows lo..m-1. */
  function GridCount(g: Grid, lo: nat, m: nat, letter: char): nat
    requires lo <= m <= |g|
    decreases m - lo
  {
    if m == lo then 0 else GridCount(g, lo, m - 1, letter) + RowCount(g, m - 1, |g[m - 1]|, letter)
  }

  /** Each x adds at most one reading per direction, and other cells add nothing. */
  lemma {:induction false} RowXmasBound(g: Grid, row: nat, n: nat)
    requires Rectangular(g) && row < |g| && n <= |g[row]|
    ensures RowXmas(g, row, n) <= 8 * RowCount(g, row, n, 'x')
  {
    if n > 0 {
      RowXmasBound(g, row, n - 1);
    }
  }

  lemma {:induction false} GridXmasBound(g: Grid, m: nat)
    requires Rectangular(g) && m <= |g|
    ensures GridXmas(g, m) <= 8 * GridCount(g, 0, m, 'x')
  {
    if m > 0 {
      GridXmasBound(g, m - 1);
      RowXmasBound(g, m - 1, |g[m - 1]|);
    }
  }

  /** The eight tasks the test submits for one x, added one after another. */
  method XmasAt(input: Grid, curR: int, curC: int) returns (count: nat)
    requires Rectangular(input)
    ensures count == Hits(input, curR, curC, "xmas", Directions)
  {
    count := 0;
    for i := 0 to |Directions|
      invariant count == Hits(input, curR, curC, "xmas", Directions[..i])
    {
      assert Directions[..i + 1][..i] == Directions[..i];
      var (dRow, dCol) := Directions[i];
      var found := FindAdjacent(input, curR, curC, "xmas", dRow, dCol);
      count := count + if found then 1 else 0;
    }
    assert Directions[..|Directions|] == Directions;
  }

  /** `test_day4Part1`: the readings of "xmas" from every x of the lower-cased grid. */
  method Day4Part1(lines: seq<string>) returns (acXmasCount: nat)
    requires Rectangular(lines)
    ensures var g := ReadGrid(lines); Rectangular(g) && acXmasCount == GridXmas(g, |g|)
  {
    var input := ReadGrid(lines);
    acXmasCount := 0;
    for row := 0 to |input|
      invariant acXmasCount == GridXmas(input, row)
    {
      var rowCount := XmasInRow(input, row);
      acXmasCount := acXmasCount + rowCount;
    }
  }

  /** The inner loop of `test_day4Part1` over the cells of one row. */
  method XmasInRow(input: Grid, row: nat) returns (rowCount: nat)
    requires Rectangular(input) && row < |input|
    ensures rowCount == RowXmas(input, row, |input[row]|)
  {
    rowCount := 0;
    for col := 0 to |input[row]|
      invariant rowCount == RowXmas(input, row, col)
    {
      if input[row][col] == 'x' {
        var n := XmasAt(input, row, col);
        rowCount := rowCount + n;
      }
    }
  }

  // ---------------------------------------------------------------------------------------
  // Part 2

  /** The part 2 test at an a: each diagonal reads "mas" in one direction or the other. */
  predicate XMas(g: Grid, r: int, c: int)
    requires Rectangular(g)
  {
    (Found(g, r - 1, c - 1, "mas", 1, 1) || Found(g, r + 1, c + 1, "mas", -1, -1)) &&
    (Found(g, r + 1, c - 1, "mas", -1, 1) || Found(g, r - 1, c + 1, "mas", 1, -1))
  }

  /** The two ends of a diagonal are an m and an s, in either order. */
  predicate MS(a: char, b: char) {
    (a == 'm' && b == 's') || (a == 's' && b == 'm')
  }

  lemma Mas(g: Grid, r: int, c: int, dRow: int, dCol: int)
    requires Rectangular(g)
    ensures Found(g, r, c, "mas", dRow, dCol) <==>
      InGrid(g, r, c) && InGrid(g, r + dRow, c + dCol) && InGrid(g, r + 2 * dRow, c + 2 * dCol) &&
      g[r][c] == 'm' && g[r + dRow][c + dCol] == 'a' && g[r + 2 * dRow][c + 2 * dCol] == 's'
  {
    assert "mas"[1..] == "as" && "as"[1..] == "s" && "s"[1..] == [];
  }

  /** An X of "mas" around (r, c): an a there, inside the border, and m and s at the ends of
      both diagonals. */
  lemma XMasIff(g: Grid, r: int, c: int)
    requires Rectangular(g)
    ensures XMas(g, r, c) <==>
      1 <= r < |g| - 1 && 1 <= c < |g[0]| - 1 && g[r][c] == 'a' &&
      MS(g[r - 1][c - 1], g[r + 1][c + 1]) && MS(g[r + 1][c - 1], g[r - 1][c + 1])
  {
    Mas(g, r - 1, c - 1, 1, 1);
    Mas(g, r + 1, c + 1, -1, -1);
    Mas(g, r + 1, c - 1, -1, 1);
    Mas(g, r - 1, c + 1, 1, -1);
  }

  /** What the cell (row, col) adds in part 2. */
  function XMasAtCell(g: Grid, row: nat, col: nat): nat
    requires Rectangular(g) && row < |g| && col < |g[row]|
  {
    if g[row][col] == 'a' && XMas(g, row, col) then 1 else 0
  }

  function RowXMas(g: Grid, row: nat, n: nat): nat
    requires Rectangular(g) && row < |g| && n <= |g[row]|
  {
    if n == 0 then 0 else RowXMas(g, row, n - 1) + XMasAtCell(g, row, n - 1)
  }

  /** The part 2 count over rows lo..m-1. */
  function GridXMas(g: Grid, lo: nat, m: nat): nat
    requires Rectangular(g) && lo <= m <= |g|
    decreases m - lo
  {
    if m == lo then 0 else GridXMas(g, lo, m - 1) + RowXMas(g, m - 1, |g[m - 1]|)
  }

  /** The part 2 count is at most the number of a's in the scanned rows. */
  lemma {:induction false} RowXMasBound(g: Grid, row: nat, n: nat)
    requires Rectangular(g) && row < |g| && n <= |g[row]|
    ensures RowXMas(g, row, n) <= RowCount(g, row, n, 'a')
  {
    if n > 0 {
      RowXMasBound(g, row, n - 1);
    }
  }

  lemma {:induction false} GridXMasBound(g: Grid, lo: nat, m: nat)
    requires Rectangular(g) && lo <= m <= |g|
    ensures GridXMas(g, lo, m) <= GridCount(g, lo, m, 'a')
    decreases m - lo
  {
    if m > lo {
      GridXMasBound(g, lo, m - 1);
      RowXMasBound(g, m - 1, |g[m - 1]|);
    }
  }

  /** No X is centred in the first or the last row. */
  lemma {:induction false} BorderRowXMas(g: Grid, row: nat, n: nat)
    requires Rectangular(g) && row < |g| && n <= |g[row]|
    requires row == 0 || row == |g| - 1
    ensures RowXMas(g, row, n) == 0
  {
    if n > 0 {
      BorderRowXMas(g, row, n - 1);
      XMasIff(g, row, n - 1);
    }
  }

  lemma {:induction false} GridXMasFirst(g: Grid, m: nat)
    requires Rectangular(g) && 1 <= m <= |g|
    ensures GridXMas(g, 0, m) == RowXMas(g, 0, |g[0]|) + GridXMas(g, 1, m)
  {
    if m > 1 {
      GridXMasFirst(g, m - 1);
    }
  }

  /** Skipping the first and the last row loses no X: rows 1..h-2 hold every X of the grid. */
  lemma SkipBorderRows(g: Grid)
    requires Rectangular(g) && |g| >= 2
    ensures GridXMas(g, 1, |g| - 1) == GridXMas(g, 0, |g|)
  {
    GridXMasFirst(g, |g|);
    BorderRowXMas(g, 0, |g[0]|);
    BorderRowXMas(g, |g| - 1, |g[|g| - 1]|);
  }

  /** The task the test submits for one a, with Java's short-circuit `||` and `&&`. */
  method XMasAt(input: Grid, curR: int, curC: int) returns (hit: bool)
    requires Rectangular(input)
    ensures hit <==> XMas(input, curR, curC)
  {
    var first := FindAdjacent(input, curR - 1, curC - 1, "mas", 1, 1);
    if !first {
      first := FindAdjacent(input, curR + 1, curC + 1, "mas", -1, -1);
    }
    hit := false;
    if first {
      hit := FindAdjacent(input, curR + 1, curC - 1, "mas", -1, 1);
      if !hit {
        hit := FindAdjacent(input, curR - 1, curC + 1, "mas", 1, -1);
      }
    }
  }

  /** `test_day4Part2`: the X's of "mas" centred on an a, scanning rows 1..h-2 only; by
      SkipBorderRows that is every X of the grid. */
  method Day4Part2(lines: seq<string>) returns (acXmasCount: nat)
    requires Rectangular(lines)
    ensures var g := ReadGrid(lines); Rectangular(g) && acXmasCount == GridXMas(g, 0, |g|)
  {
    var input := ReadGrid(lines);
    acXmasCount := 0;
    if |input| < 2 {
      if |input| == 1 {
        BorderRowXMas(input, 0, |input[0]|);
      }
      return;
    }
    for row := 1 to |input| - 1
      invariant acXmasCount == GridXMas(input, 1, row)
    {
      var rowCount := XMasInRow(input, row);
      acXmasCount := acXmasCount + rowCount;
    }
    SkipBorderRows(input);
  }

  /** The inner loop of `test_day4Part2` over the cells of one row. */
  method XMasInRow(input: Grid, row: nat) returns (rowCount: nat)
    requires Rectangular(input) && row < |input|
    ensures rowCount == RowXMas(input, row, |input[row]|)
  {
    rowCount := 0;
    for col := 0 to |input[row]|
      invariant rowCount == RowXMas(input, row, col)
    {
      if input[row][col] == 'a' {
        var hit := XMasAt(input, row, col);
        rowCount := rowCount + if hit then 1 else 0;
      }
    }
  }
}
