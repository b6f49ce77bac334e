# Advent of Code solvers, modelled in Dafny

This project models the puzzle solvers of the `com.outofmint` Advent of Code repository:
the 2023 days 1 to 5 and 2024 days 1 to 4 of `AdventOfCode2023Test` and
`AdventOfCode2024Test`, and `AdventOfCode2023.day1`, an earlier copy of 2023 day 1 part 1.
Each JUnit test method reads a puzzle input and folds it into one or two numbers. The
model drops the file reading and logging, and takes each input as lines already split
into fields. Every scoring rule becomes a Dafny specification function, and proved lemmas
state what it means. The loops of each test method become methods whose postconditions
tie them to those functions.

One module per puzzle:

- `Trebuchet` (2023 day 1, both parts, and `AdventOfCode2023.day1`). A line's calibration
  value is its first digit token followed by its last. Part 2 also accepts the words
  `one`..`nine`, and overlapping words both count.
- `CubeGame` (2023 day 2). The per-colour maximum of a game's sets is tested against
  thresholds. A game adds its id when it is possible, and always adds its power.
- `GearRatios` (2023 day 3). Each symbol adds the numbers adjacent to it on the previous,
  current and next line. A `*` with exactly two adjacent numbers adds their product.
- `Scratchcards` (2023 day 4). Points come from the count of matching numbers. A map of
  copy counters is updated in place and pushed forward over the next cards.
- `Almanac` (2023 day 5). The almanac is read into seven range tables. Each seed goes
  through all seven, and the answer is the lowest location.
- `LocationLists` (2024 day 1). Part 1 sums the distances between the two sorted columns.
  Part 2 computes a similarity score from a frequency map.
- `Reports` (2024 day 2). `checkReport` and the one-level dampener.
- `MulScanner` (2024 day 3). The `mul(a,b)` scanner and the `do()`/`don't()` switch.
- `WordSearch` (2024 day 4). `findAdjacent`, the eight-direction `xmas` count and the
  X-shaped `mas` count.

Shared modules:

- `Wrappers`: `Option` and `Result`.
- `Decimal`: digits, maximal digit runs and `Integer.parseInt` on a digit string.
- `Ascii`: `String.toLowerCase` on ASCII.

## Model

Source paths are relative to the repository root.

| member | source | states |
|---|---|---|
| Decimal.RunEnd | src/test/java/com/outofmint/AdventOfCode2023Test.java:296-299 | the end of a `\d+` match starting at i: every character before it is a digit, and the one at it is not a digit (or the line ends there) |
| Decimal.ParseNatAppend | src/test/java/com/outofmint/AdventOfCode2023Test.java:67 | `Integer.parseInt` reads most significant digit first: appending a digit multiplies the value by ten and adds the digit |
| Decimal.ParseTwoDigits | src/test/java/com/outofmint/AdventOfCode2023Test.java:62-67 | a two-digit numeral parses to ten times its first digit plus its second |
| Ascii.LowerString | src/test/java/com/outofmint/AdventOfCode2024Test.java:284 | lowercasing keeps the length, maps each upper-case letter to its lower-case letter and leaves every other character alone |
| Ascii.LowerStringUnchanged | src/test/java/com/outofmint/AdventOfCode2024Test.java:284 | a line with no upper-case letter is unchanged by lowercasing |
| Trebuchet.WordAt | src/test/java/com/outofmint/AdventOfCode2023Test.java:90 | the alternative found at a position is the first of the pattern's words spelled there; none is found exactly when no word is spelled there |
| Trebuchet.TokenAt | src/test/java/com/outofmint/AdventOfCode2023Test.java:90 | a match at a position is a digit or a spelled number whose text occurs there; there is no match exactly when the character is not a digit and no word starts there |
| Trebuchet.Translate | src/test/java/com/outofmint/AdventOfCode2023Test.java:155-168 | `translateLiteralNumber` either returns its argument or a single digit character |
| Trebuchet.NoTokenAt | src/test/java/com/outofmint/AdventOfCode2023Test.java:90 | no match starts at a non-digit whose letter starts no word that fits in the line |
| Trebuchet.TranslateText | src/test/java/com/outofmint/AdventOfCode2023Test.java:155-168 | `translateLiteralNumber` turns a matched token into the one-digit numeral of its value, and returns a digit token unchanged |
| Trebuchet.CalibrationValue | src/test/java/com/outofmint/AdventOfCode2023Test.java:61-70 | a line has no calibration value exactly when it holds no token |
| Trebuchet.ParsedPair | src/test/java/com/outofmint/AdventOfCode2023Test.java:137-141 | parsing the concatenated translations of the first and last token gives ten times the first digit plus the last digit |
| Trebuchet.SingleTokenTwice | src/test/java/com/outofmint/AdventOfCode2023.java:30-38 | a line with exactly one token yields that digit twice (eleven times it) |
| Trebuchet.ChecksumOutcome | src/test/java/com/outofmint/AdventOfCode2023Test.java:61-70 | the checksum is a number exactly when every line has a calibration value, and it is then at least zero; otherwise the error names the first line without one |
| Trebuchet.ErrorPersists | src/test/java/com/outofmint/AdventOfCode2023Test.java:144 | once a line has failed, the lines after it change nothing, whatever the value of a line |
| Trebuchet.SkipNoMatch | src/test/java/com/outofmint/AdventOfCode2023Test.java:105-107 | skipping positions where no token starts loses no token |
| Trebuchet.Find | src/test/java/com/outofmint/AdventOfCode2023Test.java:105 | `find(from)` returns the first position at or after `from` where a token starts, and nothing exactly when no token starts there |
| Trebuchet.ScanLine | src/test/java/com/outofmint/AdventOfCode2023Test.java:104-116 | the match loop ends with `first` and `last` holding the texts of the line's first and last tokens, and both null exactly when there is no token |
| Trebuchet.NextMatch | src/test/java/com/outofmint/AdventOfCode2023Test.java:105-107 | one `find(matchIndex)` call: either no token starts at or after the position, or the match found is the first token from there, and the tokens after it are those from one past its start |
| Trebuchet.LineValue | src/test/java/com/outofmint/AdventOfCode2023Test.java:97-141 | one line's loop, translation and parse compute its calibration value |
| Trebuchet.ParsePair | src/test/java/com/outofmint/AdventOfCode2023Test.java:137-141 | translating the first and last match and parsing their concatenation gives ten times the first token's digit plus the last token's digit |
| Trebuchet.AddLine | src/test/java/com/outofmint/AdventOfCode2023Test.java:96-145 | one pass of the line loop either adds the line's calibration value to the checksum of the lines before it, or throws the error that decides the checksum of all lines |
| Trebuchet.CalibrationChecksum | src/test/java/com/outofmint/AdventOfCode2023.java:20-52 | the loop over the lines computes the sum of the calibration values, or the error of the first line without one; with the digits-only pattern it is `day1` and part 1 (AdventOfCode2023Test.java:44-73), with digits and words it is part 2 (AdventOfCode2023Test.java:89-149) |
| Trebuchet.OneightMiddle | src/test/java/com/outofmint/AdventOfCode2023Test.java:105-107 | in `oneight`, restarting one past the start of `one` finds nothing at position 1 and then `eight` at position 2 |
| Trebuchet.OneightTail | src/test/java/com/outofmint/AdventOfCode2023Test.java:105-107 | no token starts in `oneight` after `eight` |
| Trebuchet.OverlappingNames | src/test/java/com/outofmint/AdventOfCode2023Test.java:105-116 | overlapping words both count: `oneight` reads one then eight, and its value is 18 |
| CubeGame.SetCountsOutcome | src/test/java/com/outofmint/AdventOfCode2023Test.java:197-204 | when a set fails, the error names its first draw with an unknown colour |
| CubeGame.SetCountsLastDraw | src/test/java/com/outofmint/AdventOfCode2023Test.java:194-204 | each colour's count in a set is that of the set's last draw of the colour, or 0 without one |
| CubeGame.LastCountExtend | src/test/java/com/outofmint/AdventOfCode2023Test.java:199-202 | a draw of another colour leaves a colour's last count as it was |
| CubeGame.SetCounts | src/test/java/com/outofmint/AdventOfCode2023Test.java:193-205 | the counts of a set exist exactly when every draw names red, green or blue |
| CubeGame.GameMaxSpec | src/test/java/com/outofmint/AdventOfCode2023Test.java:189-209 | the game maximum exists exactly when every set is well formed; each colour's maximum is at least 0 and at least every set's count, and is 0 or some set's count |
| CubeGame.GameMax | src/test/java/com/outofmint/AdventOfCode2023Test.java:189-209 | the maxima of a well-formed game start at 0 and so are never negative |
| CubeGame.Possible | src/test/java/com/outofmint/AdventOfCode2023Test.java:210 | a maximum is possible exactly when every colour's maximum is within that colour's threshold |
| CubeGame.Power | src/test/java/com/outofmint/AdventOfCode2023Test.java:216 | the power of non-negative maxima is not negative, and it is 0 when some colour was never drawn |
| CubeGame.PossibleIff | src/test/java/com/outofmint/AdventOfCode2023Test.java:210 | a game is possible exactly when no threshold is negative and every set's count of every colour is within its threshold |
| CubeGame.MaxCubes | src/test/java/com/outofmint/AdventOfCode2023Test.java:189-209 | the nested loops over sets and draws compute the game maximum, or the unknown-colour error |
| CubeGame.ErrorPersists | src/test/java/com/outofmint/AdventOfCode2023Test.java:203 | an unknown colour in a draw, after well-formed draws and sets, fails the game with that colour |
| CubeGame.SetCountsErrorPersists | src/test/java/com/outofmint/AdventOfCode2023Test.java:203 | after a set's first failing draw, later draws change nothing |
| CubeGame.GameMaxErrorPersists | src/test/java/com/outofmint/AdventOfCode2023Test.java:203 | after a game's first failing set, later sets change nothing |
| CubeGame.ChecksumsErrorPersists | src/test/java/com/outofmint/AdventOfCode2023Test.java:203 | after the first failing game, later games change nothing |
| CubeGame.Day2 | src/test/java/com/outofmint/AdventOfCode2023Test.java:179-217 | the loop over the games computes the id checksum and the power checksum, or the first error |
| GearRatios.RunsFrom | src/test/java/com/outofmint/AdventOfCode2023Test.java:296-299 | every `\d+` match found from a position is a non-empty span inside the line |
| GearRatios.FirstRunMaximal | src/test/java/com/outofmint/AdventOfCode2023Test.java:296-299 | a match starting after a non-digit is a maximal run of digits, and its value is the parse of its digits |
| GearRatios.RunsFromMaximal | src/test/java/com/outofmint/AdventOfCode2023Test.java:296-299 | every match is a maximal run of digits |
| GearRatios.RunsFromOrdered | src/test/java/com/outofmint/AdventOfCode2023Test.java:296-299 | matches come left to right, each ending before the next begins |
| GearRatios.RunsFromComplete | src/test/java/com/outofmint/AdventOfCode2023Test.java:296-299 | the scan from a run boundary finds every maximal run of digits that starts at or after it |
| GearRatios.RunsAreMaximal | src/test/java/com/outofmint/AdventOfCode2023Test.java:296-299 | the `\d+` matches of a line are exactly its maximal digit runs, in order and separated |
| GearRatios.AdjacentIffNearDigit | src/test/java/com/outofmint/AdventOfCode2023Test.java:300 | the test `start - 1 <= symbolPos <= end` holds exactly when some digit of the number is at most one column from the symbol |
| GearRatios.AdjacentValuesSpec | src/test/java/com/outofmint/AdventOfCode2023Test.java:299-303 | a value is kept exactly when some run adjacent to the symbol has it, and no more values are kept than there are runs |
| GearRatios.AdjacentValuesAppend | src/test/java/com/outofmint/AdventOfCode2023Test.java:299-303 | values are kept in left-to-right order: a later run adds its value at the end, when adjacent |
| GearRatios.ExtractAdjacentPartNumbers | src/test/java/com/outofmint/AdventOfCode2023Test.java:295-305 | the method returns the values of the line's runs adjacent to the symbol, in order |
| GearRatios.SumAppend | src/test/java/com/outofmint/AdventOfCode2023Test.java:262-274 | the sum of concatenated lists is the sum of their sums |
| GearRatios.AdjacentLines | src/test/java/com/outofmint/AdventOfCode2023Test.java:260-279 | the three lists are the numbers next to the symbol: on the previous line when there is one, then the current line, then the next line when there is one |
| GearRatios.SymbolAt | src/test/java/com/outofmint/AdventOfCode2023Test.java:259-282 | one symbol adds the sum of its neighbours, and a `*` with exactly two neighbours adds their product |
| GearRatios.LineSums | src/test/java/com/outofmint/AdventOfCode2023Test.java:254-283 | the symbol loop of one line adds the part and gear contributions of every symbol on it |
| GearRatios.Day3 | src/test/java/com/outofmint/AdventOfCode2023Test.java:242-289 | the sliding previous/current/next loop computes the part sum and the gear-ratio sum over all lines |
| GearRatios.NoSymbolsInLine | src/test/java/com/outofmint/AdventOfCode2023Test.java:243-258 | a line without symbols contributes nothing |
| GearRatios.NoSymbolsNoParts | src/test/java/com/outofmint/AdventOfCode2023Test.java:243-258 | a schematic without symbols has part sum and gear sum 0 |
| GearRatios.CountedTwice | src/test/java/com/outofmint/AdventOfCode2023Test.java:258-274 | a number next to two symbols is added once per symbol: `*7*` has part sum 14 |
| Scratchcards.SetOfSpec | src/test/java/com/outofmint/AdventOfCode2023Test.java:326-331 | `Set.of` succeeds exactly on lists without repeats, and then holds the listed numbers, as many as listed |
| Scratchcards.SetOfError | src/test/java/com/outofmint/AdventOfCode2023Test.java:326-331 | when `Set.of` fails, the number it reports occurs earlier in the list |
| Scratchcards.MatchesSpec | src/test/java/com/outofmint/AdventOfCode2023Test.java:326-336 | the match count is the number of my numbers among the winning ones, at most the size of either list |
| Scratchcards.CountInIntersection | src/test/java/com/outofmint/AdventOfCode2023Test.java:332-336 | that count is the size of the intersection of the two sets |
| Scratchcards.Points | src/test/java/com/outofmint/AdventOfCode2023Test.java:337 | a card scores 0 exactly when it has no match, and otherwise its points doubled are 2 to the power of its matches |
| Scratchcards.PointsDouble | src/test/java/com/outofmint/AdventOfCode2023Test.java:337 | a card scores 0 with no match and 1 with one, and each further match doubles its points |
| Scratchcards.MatchCountsErrorPersists | src/test/java/com/outofmint/AdventOfCode2023Test.java:326-331 | after the first card with a repeated number, later cards change nothing |
| Scratchcards.AddRangeGet | src/test/java/com/outofmint/AdventOfCode2023Test.java:367-370 | the propagation adds n to the counter of every card in the window, changes no other counter, and creates exactly the window's missing entries |
| Scratchcards.StepFrame | src/test/java/com/outofmint/AdventOfCode2023Test.java:339-370 | processing card k adds one to its own counter and its new count to each of the next m cards, and leaves every other counter unchanged |
| Scratchcards.CopiesKeys | src/test/java/com/outofmint/AdventOfCode2023Test.java:339-370 | after all cards, counters exist for exactly the cards 0 to Top-1, and that covers at least every card read |
| Scratchcards.CopiesAtLeastOne | src/test/java/com/outofmint/AdventOfCode2023Test.java:339-370 | every card ends with at least one copy, and a card's count is final once it is processed |
| Scratchcards.RangeSumUpdate | src/test/java/com/outofmint/AdventOfCode2023Test.java:368 | setting one counter changes the total by the difference, when the card is in range |
| Scratchcards.AddRangeSum | src/test/java/com/outofmint/AdventOfCode2023Test.java:367-370 | adding v to m counters raises the total by m times v |
| Scratchcards.StepSum | src/test/java/com/outofmint/AdventOfCode2023Test.java:339-370 | processing card k raises the total by 1 plus m times the new count of card k |
| Scratchcards.TotalCopies | src/test/java/com/outofmint/AdventOfCode2023Test.java:376 | the total of all counters is the sum over cards of 1 plus matches times final copies |
| Scratchcards.SharesAtLeast | src/test/java/com/outofmint/AdventOfCode2023Test.java:376 | that sum is at least the number of cards |
| Scratchcards.SumOverRange | src/test/java/com/outofmint/AdventOfCode2023Test.java:376 | summing the map's values over keys 0 to n-1 is the positional total |
| Scratchcards.ScoresTotal | src/test/java/com/outofmint/AdventOfCode2023Test.java:375-376 | the scratchcard total is the sum over cards of 1 plus matches times copies, and at least the number of cards |
| Scratchcards.Propagate | src/test/java/com/outofmint/AdventOfCode2023Test.java:367-370 | the in-place `put` loop leaves the map equal to adding the current card's count to each of the next `matches` cards |
| Scratchcards.ProcessCard | src/test/java/com/outofmint/AdventOfCode2023Test.java:339-370 | one card's two updates of the copy map perform one step of the counter specification |
| Scratchcards.SumValues | src/test/java/com/outofmint/AdventOfCode2023Test.java:376 | the sum of the map's values |
| Scratchcards.Day4 | src/test/java/com/outofmint/AdventOfCode2023Test.java:316-376 | the card loop computes the point sum and the total scratchcards, or the first duplicate-number error |
| Almanac.Classify | src/test/java/com/outofmint/AdventOfCode2023Test.java:401-419 | a header is `seeds`, one of the seven map names, or unknown |
| Almanac.ReadRows | src/test/java/com/outofmint/AdventOfCode2023Test.java:450-462 | reading a table consumes at least one line when any remain, and stops inside the input |
| Almanac.ReadRowsNoHeader | src/test/java/com/outofmint/AdventOfCode2023Test.java:450-462 | a table read without error contains no header line: it stops at a blank line or the end of the input |
| Almanac.UnknownHeaderFails | src/test/java/com/outofmint/AdventOfCode2023Test.java:417-418 | the first header with an unknown section name fails the reading with that name |
| Almanac.ReadOkKnownHeaders | src/test/java/com/outofmint/AdventOfCode2023Test.java:401-419 | when reading succeeds, every header from the start of reading on names `seeds` or one of the seven maps |
| Almanac.HandleMapping | src/test/java/com/outofmint/AdventOfCode2023Test.java:450-462 | the row loop reads the table up to the next blank line |
| Almanac.ReadAlmanac | src/test/java/com/outofmint/AdventOfCode2023Test.java:397-421 | the header loop reads the seeds and the tables, or fails |
| Almanac.InsertSpec | src/test/java/com/outofmint/AdventOfCode2023Test.java:466 | inserting into a table sorted by source start keeps it sorted and adds exactly the new row |
| Almanac.SortBySource | src/test/java/com/outofmint/AdventOfCode2023Test.java:466 | the sorted table is ordered by source start and is a permutation of the table |
| Almanac.ThroughFirst | src/test/java/com/outofmint/AdventOfCode2023Test.java:468-480 | a value is shifted by the first range in table order that covers it |
| Almanac.ThroughUncovered | src/test/java/com/outofmint/AdventOfCode2023Test.java:482-484 | a value no range covers maps to itself |
| Almanac.ThroughUnique | src/test/java/com/outofmint/AdventOfCode2023Test.java:468-480 | a value covered by exactly one range is shifted by that range's offset |
| Almanac.ThroughSkip | src/test/java/com/outofmint/AdventOfCode2023Test.java:468-480 | rows that do not cover the value can be skipped |
| Almanac.MapToDestination | src/test/java/com/outofmint/AdventOfCode2023Test.java:464-486 | the early-exit loop over the sorted table returns the value shifted by the first covering range, or the value itself |
| Almanac.OrderIrrelevant | src/test/java/com/outofmint/AdventOfCode2023Test.java:466-486 | when the ranges covering v are at most one, the row order does not matter: the covering range shifts v, and without one v is unchanged |
| Almanac.ChainError | src/test/java/com/outofmint/AdventOfCode2023Test.java:428-434 | the chain fails exactly when a named table is missing, and it reports a missing one |
| Almanac.ChainErrorPersists | src/test/java/com/outofmint/AdventOfCode2023Test.java:428-434 | after a missing table, later tables change nothing |
| Almanac.LowestSpec | src/test/java/com/outofmint/AdventOfCode2023Test.java:426-435 | the minimum is at most `Long.MAX_VALUE` and every seed's location, and is one of them or `Long.MAX_VALUE` |
| Almanac.LowestError | src/test/java/com/outofmint/AdventOfCode2023Test.java:426-435 | the minimum fails exactly when there is a seed and one of the seven tables is missing |
| Almanac.LowestErrorPersists | src/test/java/com/outofmint/AdventOfCode2023Test.java:426-435 | after a seed whose chain fails, later seeds change nothing |
| Almanac.Locate | src/test/java/com/outofmint/AdventOfCode2023Test.java:428-434 | the seven calls map a seed to its location |
| Almanac.Day5 | src/test/java/com/outofmint/AdventOfCode2023Test.java:391-444 | reading and the seed loop compute the lowest location, or the reading error, the missing seeds or the missing table |
| LocationLists.Lefts | src/test/java/com/outofmint/AdventOfCode2024Test.java:46-48 | the left column, in input order |
| LocationLists.Rights | src/test/java/com/outofmint/AdventOfCode2024Test.java:46-48 | the right column, in input order |
| LocationLists.InsertSpec | src/test/java/com/outofmint/AdventOfCode2024Test.java:51-52 | inserting into an ascending list keeps it ascending and adds exactly the new number |
| LocationLists.SortSpec | src/test/java/com/outofmint/AdventOfCode2024Test.java:51-52 | the sorted list is ascending and a permutation of the input |
| LocationLists.AscendingUnique | src/test/java/com/outofmint/AdventOfCode2024Test.java:51-52 | two ascending arrangements of the same numbers are equal |
| LocationLists.SortOrderFree | src/test/java/com/outofmint/AdventOfCode2024Test.java:51-52 | the sorted list depends only on the numbers, not on their input order |
| LocationLists.DistanceSumZero | src/test/java/com/outofmint/AdventOfCode2024Test.java:53-56 | the summed distance is 0 exactly when the two lists are equal |
| LocationLists.DistanceSumSymmetric | src/test/java/com/outofmint/AdventOfCode2024Test.java:53-56 | swapping the lists leaves the summed distance unchanged |
| LocationLists.DistanceZeroIff | src/test/java/com/outofmint/AdventOfCode2024Test.java:49-56 | the total distance is 0 exactly when both columns hold the same numbers with the same multiplicities |
| LocationLists.DistanceOrderFree | src/test/java/com/outofmint/AdventOfCode2024Test.java:49-56 | reordering either column leaves the total distance unchanged |
| LocationLists.WrongExpectedPasses | src/test/java/com/outofmint/AdventOfCode2024Test.java:57 | the assertion as written accepts 0 for a list of distance 1; the intended assertion rejects it |
| LocationLists.Columns | src/test/java/com/outofmint/AdventOfCode2024Test.java:44-48 | the reading loop builds the two columns |
| LocationLists.SumDistances | src/test/java/com/outofmint/AdventOfCode2024Test.java:53-56 | the loop sums the absolute differences of paired positions |
| LocationLists.Day1Part1 | src/test/java/com/outofmint/AdventOfCode2024Test.java:40-57 | the computed value is the total distance of the sorted columns, and the corrected assertion passes exactly when the expected value equals it |
| LocationLists.FrequenciesCount | src/test/java/com/outofmint/AdventOfCode2024Test.java:81 | the frequency map counts each number's occurrences in the right column, and has keys for exactly the numbers that occur |
| LocationLists.ScoreIsSimilarity | src/test/java/com/outofmint/AdventOfCode2024Test.java:83-85 | the `getOrDefault` sum is the sum over left numbers n of n times the occurrences of n on the right |
| LocationLists.SimilaritySnocRight | src/test/java/com/outofmint/AdventOfCode2024Test.java:81-85 | one more right number y adds y times its occurrences on the left |
| LocationLists.SimilaritySymmetric | src/test/java/com/outofmint/AdventOfCode2024Test.java:83-85 | the similarity score is symmetric in the two columns |
| LocationLists.SimilarityEmptyRight | src/test/java/com/outofmint/AdventOfCode2024Test.java:83-85 | with an empty right column the score is 0 |
| LocationLists.SimilarityRightOrderFree | src/test/java/com/outofmint/AdventOfCode2024Test.java:81-85 | reordering the right column leaves the score unchanged |
| LocationLists.SimilarityOrderFree | src/test/java/com/outofmint/AdventOfCode2024Test.java:78-85 | reordering either column leaves the score unchanged |
| LocationLists.CountRights | src/test/java/com/outofmint/AdventOfCode2024Test.java:78-82 | the reading loop builds the left column and the frequency map of the right column |
| LocationLists.ScoreNumbers | src/test/java/com/outofmint/AdventOfCode2024Test.java:83-85 | the stream sum over the left numbers |
| LocationLists.Day1Part2 | src/test/java/com/outofmint/AdventOfCode2024Test.java:72-86 | the computed score is the similarity of the two columns |
| Reports.RejectedStepUnsafe | src/test/java/com/outofmint/AdventOfCode2024Test.java:171-181 | a step that the loop rejects makes the report unsafe |
| Reports.PassingStepsSafe | src/test/java/com/outofmint/AdventOfCode2024Test.java:169-182 | a report all of whose steps pass is safe |
| Reports.Safe | src/test/java/com/outofmint/AdventOfCode2024Test.java:167-185 | a safe report of two or more levels rises exactly when its first level is below its second |
| Reports.CheckReport | src/test/java/com/outofmint/AdventOfCode2024Test.java:167-185 | `checkReport` holds exactly when the report is safe: at most one level, or strictly monotone in the direction of its first pair with steps of 1 to 3 |
| Reports.ShortReportsSafe | src/test/java/com/outofmint/AdventOfCode2024Test.java:169 | a report of at most one level is safe |
| Reports.EqualNeighboursUnsafe | src/test/java/com/outofmint/AdventOfCode2024Test.java:178 | equal neighbours make a report unsafe |
| Reports.Remove | src/test/java/com/outofmint/AdventOfCode2024Test.java:151-152 | `subset.remove(i)` keeps the levels before i and shifts the later ones down by one |
| Reports.Dampened | src/test/java/com/outofmint/AdventOfCode2024Test.java:148-158 | the dampener accepts a report exactly when it is safe or becomes safe with one level removed |
| Reports.DropEndsSafe | src/test/java/com/outofmint/AdventOfCode2024Test.java:148-158 | removing the first or last level of a safe report keeps it safe |
| Reports.ShortReportsTolerable | src/test/java/com/outofmint/AdventOfCode2024Test.java:148-158 | a report of at most two levels is always accepted by the dampener |
| Reports.InnerRemovalCanBreak | src/test/java/com/outofmint/AdventOfCode2024Test.java:148-158 | removing an inner level can make a safe report unsafe: 1 3 5 without 3 |
| Reports.CountSafe | src/test/java/com/outofmint/AdventOfCode2024Test.java:124 | the number of safe reports is at most the number of reports |
| Reports.CountTolerable | src/test/java/com/outofmint/AdventOfCode2024Test.java:159 | the number of dampened-safe reports is at most the number of reports |
| Reports.DampenerCountsMore | src/test/java/com/outofmint/AdventOfCode2024Test.java:141-161 | every safe report is counted by the dampened rule too |
| Reports.AllSafeCounted | src/test/java/com/outofmint/AdventOfCode2024Test.java:101-161 | when every report is safe, both parts count all of them |
| Reports.Day2Part1 | src/test/java/com/outofmint/AdventOfCode2024Test.java:101-126 | the loop counts the safe reports |
| Reports.Day2Part2 | src/test/java/com/outofmint/AdventOfCode2024Test.java:141-161 | the loop counts the reports accepted by the dampener |
| MulScanner.MulOperandsSound | src/test/java/com/outofmint/AdventOfCode2024Test.java:197 | the operands read after `mul(` are non-empty digit strings, and the instruction text is spelled at the position |
| MulScanner.MulAt | src/test/java/com/outofmint/AdventOfCode2024Test.java:197 | an instruction recognised at a position is a `mul(a,b)` spelled there |
| MulScanner.MulAtComplete | src/test/java/com/outofmint/AdventOfCode2024Test.java:197 | every `mul(a,b)` spelled at a position is recognised there |
| MulScanner.InstructionAt | src/test/java/com/outofmint/AdventOfCode2024Test.java:197-228 | an instruction recognised at a position is spelled there, and only `mul` is recognised by the part 1 pattern |
| MulScanner.InstructionAtComplete | src/test/java/com/outofmint/AdventOfCode2024Test.java:228 | every `mul(a,b)`, `do()` or `don't()` spelled at a position is recognised there by the part 2 pattern |
| MulScanner.ScanFindsMuls | src/test/java/com/outofmint/AdventOfCode2024Test.java:204 | the part 1 scan finds only `mul` instructions |
| MulScanner.MulsAppend | src/test/java/com/outofmint/AdventOfCode2024Test.java:204 | keeping only the `mul` instructions distributes over concatenation |
| MulScanner.ScanMuls | src/test/java/com/outofmint/AdventOfCode2024Test.java:197-228 | the part 1 scan finds exactly the `mul` instructions of the part 2 scan, in order |
| MulScanner.MulSum | src/test/java/com/outofmint/AdventOfCode2024Test.java:209 | the sum of products is never negative |
| MulScanner.MulSumOfMuls | src/test/java/com/outofmint/AdventOfCode2024Test.java:209 | the switches add nothing to the plain sum of products |
| MulScanner.AddLineProducts | src/test/java/com/outofmint/AdventOfCode2024Test.java:203-210 | the match loop of one line adds the products of that line's `mul` instructions |
| MulScanner.Day3Part1 | src/test/java/com/outofmint/AdventOfCode2024Test.java:196-212 | the loop over the lines sums a times b over every well-formed `mul(a,b)`, in scan order |
| MulScanner.FirstIndex | src/test/java/com/outofmint/AdventOfCode2024Test.java:238 | the first occurrence of a character, or none when it does not occur |
| MulScanner.LastIndex | src/test/java/com/outofmint/AdventOfCode2024Test.java:238 | the last occurrence of a character, or none when it does not occur |
| MulScanner.RemoveGroupSpec | src/test/java/com/outofmint/AdventOfCode2024Test.java:238 | when a `)` follows some `(`, the removed part runs from the first `(` to the last `)`; otherwise the text is kept whole |
| MulScanner.RemoveGroupAt | src/test/java/com/outofmint/AdventOfCode2024Test.java:238 | removing the greedy `\(.*\)` group from an instruction leaves what precedes its first `(` |
| MulScanner.OperationOf | src/test/java/com/outofmint/AdventOfCode2024Test.java:238-257 | every matched instruction's operation name is `mul`, `do` or `don't`, so the unsupported-operation branch is never reached |
| MulScanner.Step | src/test/java/com/outofmint/AdventOfCode2024Test.java:239-255 | the running sum never decreases and grows only at a `mul` while the flag is on; afterwards the flag is on exactly after `do()`, or after a `mul` when it was on |
| MulScanner.EnabledStep | src/test/java/com/outofmint/AdventOfCode2024Test.java:250-255 | after an instruction the flag is on exactly when it was `do()`, or it was a `mul` and the flag was on before |
| MulScanner.RunReference | src/test/java/com/outofmint/AdventOfCode2024Test.java:233-258 | the `doIt` machine, started on, sums exactly the products of the `mul`s with no `don't()` after the last `do()` before them, and ends with that flag |
| MulScanner.Part2Value | src/test/java/com/outofmint/AdventOfCode2024Test.java:227-261 | part 2 is the sum of the enabled products over all lines taken as one instruction stream |
| MulScanner.EnabledSumAtMost | src/test/java/com/outofmint/AdventOfCode2024Test.java:241 | the enabled sum is at most the plain sum |
| MulScanner.EnabledSumWithoutDont | src/test/java/com/outofmint/AdventOfCode2024Test.java:241 | without a `don't()` every product is enabled |
| MulScanner.InstructionsMuls | src/test/java/com/outofmint/AdventOfCode2024Test.java:197-228 | over all lines, the part 1 instructions are the `mul`s of the part 2 instructions |
| MulScanner.Part2AtMostPart1 | src/test/java/com/outofmint/AdventOfCode2024Test.java:196-261 | part 2 is at most part 1, and equal to it when no `don't()` occurs |
| MulScanner.RunAppend | src/test/java/com/outofmint/AdventOfCode2024Test.java:233-236 | the flag and the sum carry from one line to the next |
| MulScanner.ExecuteLine | src/test/java/com/outofmint/AdventOfCode2024Test.java:236-259 | the match loop of one line runs the machine over that line's instructions |
| MulScanner.Day3Part2 | src/test/java/com/outofmint/AdventOfCode2024Test.java:227-261 | the loop over the lines computes the enabled sum |
| WordSearch.ReadGrid | src/test/java/com/outofmint/AdventOfCode2024Test.java:283-285 | the grid has one row per line, each the lowercased line |
| WordSearch.AlongIff | src/test/java/com/outofmint/AdventOfCode2024Test.java:319-331 | a word lies along a direction exactly when, for every k, the cell k steps from the start is inside the grid and holds letter k |
| WordSearch.FindAdjacent | src/test/java/com/outofmint/AdventOfCode2024Test.java:315-336 | `findAdjacent` returns true exactly when the word is non-empty and lies along the direction from the start, inside the grid |
| WordSearch.Hits | src/test/java/com/outofmint/AdventOfCode2024Test.java:294-301 | a cell adds at most one per direction tried |
| WordSearch.XmasAt | src/test/java/com/outofmint/AdventOfCode2024Test.java:294-301 | the eight tasks of one `x` cell add the number of directions along which `xmas` reads |
| WordSearch.XmasInRow | src/test/java/com/outofmint/AdventOfCode2024Test.java:289-305 | the column loop of one row adds the `xmas` hits of its `x` cells |
| WordSearch.RowXmasBound | src/test/java/com/outofmint/AdventOfCode2024Test.java:289-301 | a row adds at most eight per `x` cell |
| WordSearch.GridXmasBound | src/test/java/com/outofmint/AdventOfCode2024Test.java:288-301 | the part 1 count is at most eight times the number of `x` cells |
| WordSearch.Day4Part1 | src/test/java/com/outofmint/AdventOfCode2024Test.java:276-309 | the count is, over every `x` cell of the lowercased grid, the number of the eight directions along which `xmas` reads |
| WordSearch.Mas | src/test/java/com/outofmint/AdventOfCode2024Test.java:389-395 | `mas` reads along a direction exactly when its three cells are inside the grid and hold m, a and s |
| WordSearch.XMasIff | src/test/java/com/outofmint/AdventOfCode2024Test.java:387-395 | a cell counts exactly when it is an inner `a` and each diagonal through it has an m at one end and an s at the other |
| WordSearch.XMasAt | src/test/java/com/outofmint/AdventOfCode2024Test.java:387-396 | the short-circuit test of the four `findAdjacent` calls decides the X-shape at a cell |
| WordSearch.XMasInRow | src/test/java/com/outofmint/AdventOfCode2024Test.java:382-400 | the column loop of one row counts its X-shaped cells |
| WordSearch.RowXMasBound | src/test/java/com/outofmint/AdventOfCode2024Test.java:382-383 | a row counts at most its `a` cells |
| WordSearch.GridXMasBound | src/test/java/com/outofmint/AdventOfCode2024Test.java:381-383 | the part 2 count lies between 0 and the number of `a` cells scanned |
| WordSearch.BorderRowXMas | src/test/java/com/outofmint/AdventOfCode2024Test.java:380-381 | the first and last rows hold no X-shape |
| WordSearch.GridXMasFirst | src/test/java/com/outofmint/AdventOfCode2024Test.java:381 | the count over rows from 0 is row 0's count plus the count from row 1 |
| WordSearch.SkipBorderRows | src/test/java/com/outofmint/AdventOfCode2024Test.java:380-381 | scanning rows 1 to h-2 gives the same count as scanning every row, as the source's comment claims |
| WordSearch.Day4Part2 | src/test/java/com/outofmint/AdventOfCode2024Test.java:368-404 | the count is the number of X-shaped `mas` cells of the lowercased grid |

## Left out

- File reading, the JUnit argument providers and the expected puzzle answers: inputs are parameters, and each test method's result is returned instead of asserted.
- Line framing with `String.split`, `trim`, `replace` and `Integer.parseInt` on whole fields: inputs are already-split records. These are games with sets of draws, cards with two number lists, almanac lines as headers or number rows, and integer columns. A field that does not parse is not modelled.
- The regular-expression engine: each `Pattern` is an explicit scanner over the characters of a line. `find()` after a one-character `\d` match restarts one past its start, which is how part 2's `find(start + 1)` is modelled too.
- Logging, ANSI highlighting, `highlight`, `highlightIfGreater`, `printInput` and the day 5 progress estimate: display only.
- The `ExecutorService` and `CompletableFuture` fan-out of 2024 day 4, and its `AtomicInteger`: the count is a sequential sum in the same order of cells and directions.
- Java `int` and `long` overflow: integers are unbounded.
- Scratchcards.Points: the floating-point `(int) Math.pow(2, matches - 1)` is the integer rule 0 for no match and 2^(m-1) otherwise, which is what the cast yields for m up to 31; beyond that Java saturates at `Integer.MAX_VALUE`.
- Ascii.LowerString: only ASCII letters are lowercased, not the full Unicode `toLowerCase`.
- Almanac.SortBySource: the Java stream sort is modelled by a stable insertion sort; stability is not stated as a lemma.
- MulScanner.Day3Part1: the operands are taken from the scanner's digit runs instead of re-parsing the matched text with `replaceAll`, `split` and `parseInt`; the two agree on every well-formed match (MulScanner.MulOperandsSound).
- WordSearch.Day4Part1: requires a rectangular grid. `findAdjacent` bounds columns by the width of row 0, so on ragged rows the source can throw `IndexOutOfBoundsException`, which is not modelled.
- WordSearch.Day4Part2: requires a rectangular grid, for the same reason.
- WordSearch.FindAdjacent: requires a rectangular grid, for the same reason.

## Findings

| source | as written | input that shows it | evidently intended | confidence | as-written member | corrected member |
|---|---|---|---|---|---|---|
| src/test/java/com/outofmint/AdventOfCode2024Test.java:57 | the part 1 assertion compares the expected distance with itself, so the computed distance is never checked | one pair 3 and 4 (distance 1) with expected value 0: the assertion passes | compare the expected distance with `absoluteDistance` | high, not executed | LocationLists.WrongExpectedPasses | LocationLists.Day1Part1 |
